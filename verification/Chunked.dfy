/** The chunked request body reader of the object proxy (section 7.1 of RFC 9112): it collects the raw
    bytes of the body and must stop exactly at its end. */
module Chunked {
  import opened BigEndian
  import opened Optional

  const CR: byte := 13
  const LF: byte := 10
  const SEMICOLON: byte := 59
  const CRLF: seq<byte> := [13, 10]

  // ---------------------------------------------------------------- the buffered stream

  /** The length of the line at the head of the stream, its line feed included. */
  function LineLength(stream: seq<byte>): (n: nat)
    ensures n <= |stream| && (stream != [] ==> n > 0)
  {
    if stream == [] then 0 else if stream[0] == LF then 1 else 1 + LineLength(stream[1..])
  }

  /** How many bytes `read(n)` takes: all of them when `n` is negative. */
  function ReadLength(stream: seq<byte>, n: int): (k: nat)
    ensures k <= |stream|
  {
    if n < 0 || n > |stream| then |stream| else n
  }

  class Reader {
    var rest: seq<byte>

    constructor (stream: seq<byte>)
      ensures rest == stream
    {
      rest := stream;
    }

    method ReadLine() returns (line: seq<byte>)
      modifies this
      ensures old(rest) == line + rest && |line| == LineLength(old(rest))
    {
      var n := LineLength(rest);
      line := rest[..n];
      rest := rest[n..];
    }

    method Read(n: int) returns (bytes: seq<byte>)
      modifies this
      ensures old(rest) == bytes + rest && |bytes| == ReadLength(old(rest), n)
    {
      var k := ReadLength(rest, n);
      bytes := rest[..k];
      rest := rest[k..];
    }
  }

  // ---------------------------------------------------------------- the size of a chunk

  predicate IsSpace(b: byte) {
    b == 32 || 9 <= b <= 13
  }

  function StripLeft(s: seq<byte>): (r: seq<byte>)
  {
    if s != [] && IsSpace(s[0]) then StripLeft(s[1..]) else s
  }

  function StripRight(s: seq<byte>): (r: seq<byte>)
  {
    if s != [] && IsSpace(s[|s| - 1]) then StripRight(s[..|s| - 1]) else s
  }

  function HexValue(b: byte): (v: Option<nat>)
    ensures v.Some? ==> v.value < 16
  {
    if 48 <= b <= 57 then Some(b - 48)
    else if 97 <= b <= 102 then Some(b - 87)
    else if 65 <= b <= 70 then Some(b - 55)
    else None
  }

  predicate IsHex(s: seq<byte>) {
    forall i :: 0 <= i < |s| ==> HexValue(s[i]).Some?
  }

  /** Digits in base 16, with single underscores between digits allowed. */
  function Digits(s: seq<byte>): (v: Option<nat>)
  {
    if s == [] then None
    else
      var n := |s| - 1;
      if HexValue(s[n]).None? then None
      else if n == 0 then HexValue(s[0])
      else
        var high := Digits(if s[n - 1] == 95 then s[..n - 1] else s[..n]);
        if high.None? then None else Some(16 * high.value + HexValue(s[n]).value)
  }

  /** The prefix `0x`, after which an underscore may stand. */
  function WithoutPrefix(s: seq<byte>): (r: seq<byte>)
  {
    if |s| >= 2 && s[0] == 48 && (s[1] == 120 || s[1] == 88)
    then (if |s| >= 3 && s[2] == 95 then s[3..] else s[2..])
    else s
  }

  /** `int(text, 16)`: None where it raises. */
  function ParseInt(text: seq<byte>): (v: Option<int>)
  {
    var s := StripRight(StripLeft(text));
    var negative := s != [] && s[0] == 45;
    var unsigned := if s != [] && (s[0] == 45 || s[0] == 43) then s[1..] else s;
    match Digits(WithoutPrefix(unsigned))
    case None => None
    case Some(n) => var value: int := n; Some(if negative then -value else value)
  }

  function BeforeSemicolon(line: seq<byte>): (text: seq<byte>)
  {
    if line == [] || line[0] == SEMICOLON then [] else [line[0]] + BeforeSemicolon(line[1..])
  }

  function ChunkSize(line: seq<byte>): (v: Option<int>)
  {
    ParseInt(BeforeSemicolon(line))
  }

  // ---------------------------------------------------------------- the reader

  /** `Spins`: the stream ended inside the trailer section, where the loop reads empty lines forever. */
  datatype Outcome = Body(raw: seq<byte>, rest: seq<byte>) | Malformed | Spins

  function Prepend(head: seq<byte>, o: Outcome): (r: Outcome)
  {
    if o.Body? then Body(head + o.raw, o.rest) else o
  }

  function ReadTrailers(stream: seq<byte>): (o: Outcome)
    decreases |stream|
  {
    if stream == [] then Spins
    else
      var n := LineLength(stream);
      if stream[..n] == CRLF then Body(stream[..n], stream[n..]) else Prepend(stream[..n], ReadTrailers(stream[n..]))
  }

  function ReadChunks(stream: seq<byte>): (o: Outcome)
    decreases |stream|, 1
  {
    // an empty line is no number
    if stream == [] then Malformed else ReadAfterLine(stream, LineLength(stream))
  }

  function ReadAfterLine(stream: seq<byte>, n: nat): (o: Outcome)
    requires 0 < n <= |stream|
    decreases |stream|, 0
  {
    match ChunkSize(stream[..n])
    case None => Malformed
    case Some(size) =>
      if size == 0 then Prepend(stream[..n], ReadTrailers(stream[n..]))
      else
        var k := ReadLength(stream[n..], size + 2);
        Prepend(stream[..n + k], ReadChunks(stream[n + k..]))
  }

  ghost predicate Splits(stream: seq<byte>, o: Outcome) {
    o.Body? ==> stream == o.raw + o.rest
  }

  lemma SplitsStep(head: seq<byte>, tail: seq<byte>, o: Outcome)
    requires Splits(tail, o)
    ensures Splits(head + tail, Prepend(head, o))
  {
    if o.Body? { assert head + (o.raw + o.rest) == head + o.raw + o.rest; }
  }

  lemma {:induction false} TrailersLoseNothing(stream: seq<byte>)
    ensures Splits(stream, ReadTrailers(stream))
    decreases |stream|
  {
    if stream != [] {
      var n := LineLength(stream);
      TrailersLoseNothing(stream[n..]);
      SplitsStep(stream[..n], stream[n..], ReadTrailers(stream[n..]));
      assert stream == stream[..n] + stream[n..];
    }
  }

  /** One chunk: its line and its data go to the body, `tail` is still to be read. */
  ghost predicate Advances(stream: seq<byte>, head: seq<byte>, tail: seq<byte>) {
    && stream == head + tail
    && |tail| < |stream|
    && ReadChunks(stream) == Prepend(head, ReadChunks(tail))
  }

  lemma ChunkStep(line: seq<byte>, data: seq<byte>, tail: seq<byte>, size: int)
    requires line != [] && |line| == LineLength(line + data + tail) && ChunkSize(line) == Some(size) && size != 0
    requires |data| == ReadLength(data + tail, size + 2)
    ensures Advances(line + data + tail, line + data, tail)
  {
    var stream, n, k := line + data + tail, |line|, |data|;
    assert stream[..n] == line && stream[n..] == data + tail;
    assert stream[..n + k] == line + data && stream[n + k..] == tail;
  }

  lemma LastStep(line: seq<byte>, tail: seq<byte>)
    requires line != [] && |line| == LineLength(line + tail) && ChunkSize(line) == Some(0)
    ensures ReadChunks(line + tail) == Prepend(line, ReadTrailers(tail))
  {
    assert (line + tail)[..|line|] == line && (line + tail)[|line|..] == tail;
  }

  /** Whatever the stream, the raw body and what is left unread make it up. */
  lemma {:induction false} NothingIsLost(stream: seq<byte>)
    ensures Splits(stream, ReadChunks(stream))
    decreases |stream|, 1
  {
    var n := LineLength(stream);
    var line, rest := stream[..n], stream[n..];
    assert stream == line + rest;
    if stream != [] && ChunkSize(line).Some? {
      if ChunkSize(line).value == 0 {
        LastStep(line, rest);
        TrailersLoseNothing(rest);
        SplitsStep(line, rest, ReadTrailers(rest));
      } else {
        NothingIsLostStep(line, rest, ChunkSize(line).value);
      }
    }
  }

  lemma {:induction false} NothingIsLostStep(line: seq<byte>, rest: seq<byte>, size: int)
    requires line != [] && |line| == LineLength(line + rest) && ChunkSize(line) == Some(size) && size != 0
    ensures Splits(line + rest, ReadChunks(line + rest))
    decreases |line + rest|, 0
  {
    var k := ReadLength(rest, size + 2);
    var data, tail := rest[..k], rest[k..];
    assert line + rest == line + data + tail && rest == data + tail;
    ChunkStep(line, data, tail, size);
    NothingIsLost(tail);
    SplitsStep(line + data, tail, ReadChunks(tail));
  }

  // ---------------------------------------------------------------- where the reader never stops

  /** An empty line stands at offset `i`: a line starts there and is a bare line break. */
  predicate BlankLineAt(stream: seq<byte>, i: nat) {
    i + 2 <= |stream| && stream[i] == CR && stream[i + 1] == LF && (i == 0 || stream[i - 1] == LF)
  }

  predicate HasBlankLine(stream: seq<byte>) {
    exists i: nat :: i + 2 <= |stream| && BlankLineAt(stream, i)
  }

  /** A line holds its line feed at its end only, and lacks one only at the end of the stream. */
  lemma {:induction false} LineShape(stream: seq<byte>)
    ensures var n := LineLength(stream);
            && (forall i :: 0 <= i < n - 1 ==> stream[i] != LF)
            && (n < |stream| ==> n > 0 && stream[n - 1] == LF)
  {
    if stream != [] && stream[0] != LF {
      LineShape(stream[1..]);
      var n := LineLength(stream);
      forall i | 0 <= i < n - 1 ensures stream[i] != LF {
        if i > 0 { assert stream[i] == stream[1..][i - 1]; }
      }
    }
  }

  /** Behind a first line that is not empty, the empty lines are those of the rest. */
  lemma BlankLineBehind(stream: seq<byte>, n: nat)
    requires stream != [] && n == LineLength(stream) && stream[..n] != CRLF
    ensures HasBlankLine(stream) <==> HasBlankLine(stream[n..])
  {
    LineShape(stream);
    var rest := stream[n..];
    if HasBlankLine(stream) {
      var i: nat :| i + 2 <= |stream| && BlankLineAt(stream, i);
      if i < n { BlankFirstLine(stream, n, i); }
      assert BlankLineAt(rest, i - n);
    }
    if HasBlankLine(rest) {
      var i: nat :| i + 2 <= |rest| && BlankLineAt(rest, i);
      assert BlankLineAt(stream, n + i);
    }
  }

  lemma BlankFirstLine(stream: seq<byte>, n: nat, i: nat)
    requires stream != [] && n == LineLength(stream) && BlankLineAt(stream, i) && i < n
    ensures stream[..n] == CRLF
  {
    LineShape(stream);
  }

  /** The trailer loop runs forever exactly when no empty line is left in the stream. */
  lemma {:induction false} TrailersSpin(stream: seq<byte>)
    ensures ReadTrailers(stream).Spins? <==> !HasBlankLine(stream)
    ensures !ReadTrailers(stream).Malformed?
    decreases |stream|
  {
    if stream != [] {
      var n := LineLength(stream);
      if stream[..n] == CRLF {
        assert stream[0] == stream[..n][0] && stream[1] == stream[..n][1];
        assert BlankLineAt(stream, 0);
      } else {
        BlankLineBehind(stream, n);
        TrailersSpin(stream[n..]);
      }
    }
  }

  /** How far the first chunk of the stream reaches, behind its line of `n` bytes. */
  function ChunkEnd(stream: seq<byte>, n: nat, size: int): (used: nat)
    requires n <= |stream|
    ensures n <= used <= |stream|
  {
    n + ReadLength(stream[n..], size + 2)
  }

  function Shifted(used: nat, at: Option<nat>): (r: Option<nat>)
  {
    if at.Some? then Some(used + at.value) else None
  }

  /** Where the trailer section starts: behind the line of the first chunk of size zero, if the stream has
      one and every size before it is a number. */
  function TrailerStart(stream: seq<byte>): (at: Option<nat>)
    ensures at.Some? ==> at.value <= |stream|
    decreases |stream|, 1
  {
    if stream == [] then None else StartAfterLine(stream, LineLength(stream), ChunkSize(stream[..LineLength(stream)]))
  }

  function StartAfterLine(stream: seq<byte>, n: nat, size: Option<int>): (at: Option<nat>)
    requires 0 < n <= |stream|
    ensures at.Some? ==> at.value <= |stream|
    decreases |stream|, 0
  {
    if size.None? then None
    else if size.value == 0 then Some(n)
    else Shifted(ChunkEnd(stream, n, size.value), TrailerStart(stream[ChunkEnd(stream, n, size.value)..]))
  }

  lemma StartBehindChunk(stream: seq<byte>, n: nat, size: int, used: nat)
    requires 0 < n <= |stream| && size != 0 && used == ChunkEnd(stream, n, size)
    ensures StartAfterLine(stream, n, Some(size)) == Shifted(used, TrailerStart(stream[used..]))
  {
  }

  lemma Slices(stream: seq<byte>, n: nat, used: nat)
    requires n <= used <= |stream|
    ensures stream[..n] + stream[n..used] + stream[used..] == stream
    ensures stream[n..used] + stream[used..] == stream[n..]
    ensures stream[..n] + stream[n..used] == stream[..used]
  {
  }

  lemma ReadBehindChunk(stream: seq<byte>, n: nat, size: int, used: nat)
    requires stream != [] && n == LineLength(stream) && ChunkSize(stream[..n]) == Some(size) && size != 0
    requires used == ChunkEnd(stream, n, size)
    ensures ReadChunks(stream) == Prepend(stream[..used], ReadChunks(stream[used..]))
  {
    Slices(stream, n, used);
    ChunkStep(stream[..n], stream[n..used], stream[used..], size);
  }

  /** What the reader makes of a stream whose trailer section starts at `at`. */
  ghost predicate EndsAsStarted(stream: seq<byte>, at: Option<nat>, o: Outcome)
    requires at.Some? ==> at.value <= |stream|
  {
    && (o.Malformed? <==> at.None?)
    && (o.Spins? <==> at.Some? && !HasBlankLine(stream[at.value..]))
  }

  lemma EndsBehind(stream: seq<byte>, used: nat, at: Option<nat>, o: Outcome)
    requires used <= |stream| && (at.Some? ==> at.value <= |stream[used..]|)
    requires EndsAsStarted(stream[used..], at, o)
    ensures EndsAsStarted(stream, Shifted(used, at), Prepend(stream[..used], o))
  {
    if at.Some? {
      assert stream[used..][at.value..] == stream[used + at.value..];
    }
  }

  /** For every stream: the reader raises exactly when a size before the last chunk is no number or the
      stream ends first, runs forever exactly when no empty line follows the last chunk, and stops with a
      body otherwise. */
  lemma {:induction false} SpinsExactlyWithoutBlankLine(stream: seq<byte>)
    ensures EndsAsStarted(stream, TrailerStart(stream), ReadChunks(stream))
    decreases |stream|
  {
    if stream != [] {
      var n := LineLength(stream);
      var size := ChunkSize(stream[..n]);
      if size == Some(0) {
        TrailersSpin(stream[n..]);
      } else if size.Some? {
        var used := ChunkEnd(stream, n, size.value);
        SpinsExactlyWithoutBlankLine(stream[used..]);
        StartBehindChunk(stream, n, size.value, used);
        ReadBehindChunk(stream, n, size.value, used);
        EndsBehind(stream, used, TrailerStart(stream[used..]), ReadChunks(stream[used..]));
      }
    }
  }

  /** A last chunk at the end of the stream: `0` and a line break, and no trailer section. */
  lemma CutOffBodySpins()
    ensures ReadChunks([48, 13, 10]) == Spins
  {
    var head := Head([48], [], []);
    assert HeadLine(head) + [] == [48, 13, 10];
    assert HexNumber([48]) == 0 by { assert [48][..0] == []; }
    HeadIsLine(head, 0, []);
    HeadSize(head, 0);
    LastStep([48, 13, 10], []);
  }

  // ---------------------------------------------------------------- the loop

  ghost predicate Pending(total: Outcome, chunks: seq<byte>, left: Outcome) {
    total == Prepend(chunks, left)
  }

  lemma PendingStep(total: Outcome, chunks: seq<byte>, line: seq<byte>, left: Outcome)
    requires Pending(total, chunks, Prepend(line, left))
    ensures Pending(total, chunks + line, left)
  {
    if left.Body? { assert chunks + (line + left.raw) == chunks + line + left.raw; }
  }

  method TakeTrailers(r: Reader, chunks: seq<byte>) returns (o: Outcome)
    modifies r
    ensures o == Prepend(chunks, ReadTrailers(old(r.rest)))
    ensures o.Body? ==> r.rest == o.rest
    ensures o.Spins? <==> !HasBlankLine(old(r.rest))
  {
    TrailersSpin(r.rest);
    var all := chunks;
    ghost var total := Prepend(chunks, ReadTrailers(r.rest));
    while true
      invariant Pending(total, all, ReadTrailers(r.rest))
      decreases |r.rest|
    {
      if r.rest == [] {
        return Spins;
      }
      ghost var n, before := LineLength(r.rest), r.rest;
      var trailer := r.ReadLine();
      if trailer == CRLF {
        return Body(all + trailer, r.rest);
      }
      PendingStep(total, all, trailer, ReadTrailers(r.rest));
      all := all + trailer;
    }
  }

  /** The next chunk's line, and its data unless it is the last one. */
  method TakeChunk(r: Reader) returns (size: Option<int>, piece: seq<byte>)
    modifies r
    ensures size.None? ==> ReadChunks(old(r.rest)) == Malformed
    ensures size == Some(0) ==> ReadChunks(old(r.rest)) == Prepend(piece, ReadTrailers(r.rest))
    ensures size.Some? && size.value != 0 ==> Advances(old(r.rest), piece, r.rest)
  {
    ghost var before := r.rest;
    piece := r.ReadLine();
    size := if piece == [] then None else ChunkSize(piece);
    assert before[..|piece|] == piece;
    if size == Some(0) {
      LastStep(piece, r.rest);
    } else if size.Some? {
      var data := r.Read(size.value + 2);
      assert before == piece + data + r.rest;
      ChunkStep(piece, data, r.rest, size.value);
      piece := piece + data;
    }
  }

  method TakeChunks(r: Reader) returns (o: Outcome)
    modifies r
    ensures o == ReadChunks(old(r.rest))
    ensures o.Body? ==> r.rest == o.rest
    ensures var at := TrailerStart(old(r.rest)); o.Spins? <==> at.Some? && !HasBlankLine(old(r.rest)[at.value..])
  {
    SpinsExactlyWithoutBlankLine(r.rest);
    var all: seq<byte> := [];
    ghost var total := ReadChunks(r.rest);
    while true
      invariant Pending(total, all, ReadChunks(r.rest))
      decreases |r.rest|
    {
      var size, piece := TakeChunk(r);
      if size.None? {
        return Malformed;
      }
      if size.value == 0 {
        PendingStep(total, all, piece, ReadTrailers(r.rest));
        o := TakeTrailers(r, all + piece);
        return;
      }
      PendingStep(total, all, piece, ReadChunks(r.rest));
      all := all + piece;
    }
  }

  // ---------------------------------------------------------------- well-formed bodies

  /** A chunk's first line: hexadecimal size, then optionally white space and a semicolon with extensions. */
  datatype Head = Head(size: seq<byte>, space: seq<byte>, extension: seq<byte>)

  datatype Chunk = Chunk(head: Head, data: seq<byte>)

  datatype Message = Message(chunks: seq<Chunk>, last: Head, trailers: seq<seq<byte>>)

  function HexNumber(s: seq<byte>): (n: nat)
    requires IsHex(s)
  {
    if s == [] then 0 else 16 * HexNumber(s[..|s| - 1]) + HexValue(s[|s| - 1]).value
  }

  predicate ValidHead(h: Head, size: nat) {
    && h.size != [] && IsHex(h.size) && HexNumber(h.size) == size
    && (forall i :: 0 <= i < |h.space| ==> h.space[i] == 32 || h.space[i] == 9)
    && (if h.extension == [] then h.space == [] else h.extension[0] == SEMICOLON && LF !in h.extension)
  }

  predicate ValidMessage(m: Message) {
    && (forall i :: 0 <= i < |m.chunks| ==> m.chunks[i].data != [] && ValidHead(m.chunks[i].head, |m.chunks[i].data|))
    && ValidHead(m.last, 0)
    && (forall i :: 0 <= i < |m.trailers| ==> m.trailers[i] != [] && LF !in m.trailers[i])
  }

  function HeadLine(h: Head): (bytes: seq<byte>)
  {
    h.size + h.space + h.extension + CRLF
  }

  function TrailerLines(trailers: seq<seq<byte>>): (bytes: seq<byte>)
  {
    if trailers == [] then CRLF else trailers[0] + CRLF + TrailerLines(trailers[1..])
  }

  function Render(m: Message): (bytes: seq<byte>)
    decreases |m.chunks|
  {
    if m.chunks == [] then HeadLine(m.last) + TrailerLines(m.trailers)
    else HeadLine(m.chunks[0].head) + m.chunks[0].data + CRLF + Render(m.(chunks := m.chunks[1..]))
  }

  lemma {:induction false} LineEndsAtFeed(line: seq<byte>, rest: seq<byte>)
    requires LF !in line
    ensures LineLength(line + CRLF + rest) == |line| + 2
  {
    var stream := line + CRLF + rest;
    if line == [] {
      assert stream[0] == CR && stream[1..][0] == LF;
    } else {
      assert stream[1..] == line[1..] + CRLF + rest;
      LineEndsAtFeed(line[1..], rest);
    }
  }

  lemma {:induction false} DigitsOfHex(s: seq<byte>)
    requires s != [] && IsHex(s)
    ensures Digits(s) == Some(HexNumber(s))
  {
    var n := |s| - 1;
    if n > 0 {
      DigitsOfHex(s[..n]);
      assert HexValue(s[n - 1]).Some?;
    } else {
      assert s[..n] == [];
    }
  }

  lemma {:induction false} StripSpace(s: seq<byte>, space: seq<byte>)
    requires s != [] && !IsSpace(s[|s| - 1]) && forall i :: 0 <= i < |space| ==> IsSpace(space[i])
    ensures StripRight(s + space) == s
  {
    if space == [] {
      assert s + space == s;
    } else {
      var n := |space| - 1;
      assert (s + space)[..|s + space| - 1] == s + space[..n];
      StripSpace(s, space[..n]);
    }
  }

  lemma {:induction false} BeforeNoSemicolon(s: seq<byte>, rest: seq<byte>)
    requires SEMICOLON !in s && (rest == [] || rest[0] == SEMICOLON)
    ensures BeforeSemicolon(s + rest) == s
  {
    if s == [] {
      assert s + rest == rest;
    } else {
      assert (s + rest)[1..] == s[1..] + rest;
      BeforeNoSemicolon(s[1..], rest);
    }
  }

  lemma ParseSpaced(size: seq<byte>, space: seq<byte>)
    requires size != [] && IsHex(size) && forall i :: 0 <= i < |space| ==> IsSpace(space[i])
    ensures ParseInt(size + space) == Some(HexNumber(size))
  {
    assert HexValue(size[0]).Some? && HexValue(size[|size| - 1]).Some?;
    assert StripLeft(size + space) == size + space;
    StripSpace(size, space);
    assert |size| > 1 ==> HexValue(size[1]).Some?;
    DigitsOfHex(size);
  }

  lemma HeadSize(h: Head, size: nat)
    requires ValidHead(h, size)
    ensures ChunkSize(HeadLine(h)) == Some(size)
  {
    if h.extension == [] {
      assert HeadLine(h) == h.size + CRLF + [];
      forall i | 0 <= i < |h.size| ensures h.size[i] != SEMICOLON { assert HexValue(h.size[i]).Some?; }
      BeforeNoSemicolon(h.size + CRLF, []);
      ParseSpaced(h.size, CRLF);
    } else {
      assert HeadLine(h) == h.size + h.space + (h.extension + CRLF);
      forall i | 0 <= i < |h.size| ensures h.size[i] != SEMICOLON { assert HexValue(h.size[i]).Some?; }
      BeforeNoSemicolon(h.size + h.space, h.extension + CRLF);
      ParseSpaced(h.size, h.space);
    }
  }

  lemma HeadIsLine(h: Head, size: nat, rest: seq<byte>)
    requires ValidHead(h, size)
    ensures LineLength(HeadLine(h) + rest) == |HeadLine(h)|
  {
    forall i | 0 <= i < |h.size| ensures h.size[i] != LF { assert HexValue(h.size[i]).Some?; }
    LineEndsAtFeed(h.size + h.space + h.extension, rest);
  }

  lemma {:induction false} ReadsTrailers(trailers: seq<seq<byte>>, rest: seq<byte>)
    requires forall i :: 0 <= i < |trailers| ==> trailers[i] != [] && LF !in trailers[i]
    ensures ReadTrailers(TrailerLines(trailers) + rest) == Body(TrailerLines(trailers), rest)
  {
    var stream := TrailerLines(trailers) + rest;
    if trailers == [] {
      assert stream == [] + CRLF + rest;
      LineEndsAtFeed([], rest);
      assert stream[..2] == CRLF && stream[2..] == rest;
    } else {
      var line, more := trailers[0] + CRLF, TrailerLines(trailers[1..]);
      assert stream == trailers[0] + CRLF + (more + rest);
      LineEndsAtFeed(trailers[0], more + rest);
      assert stream[..|line|] == line && stream[|line|..] == more + rest;
      ReadsTrailers(trailers[1..], rest);
    }
  }

  ghost predicate Reads(stream: seq<byte>, raw: seq<byte>, rest: seq<byte>) {
    ReadChunks(stream) == Body(raw, rest)
  }

  lemma ReadsMore(stream: seq<byte>, head: seq<byte>, tail: seq<byte>, raw: seq<byte>, rest: seq<byte>)
    requires Advances(stream, head, tail) && Reads(tail, raw, rest)
    ensures Reads(stream, head + raw, rest)
  {
  }

  lemma ChunkAdvances(c: Chunk, tail: seq<byte>)
    requires c.data != [] && ValidHead(c.head, |c.data|)
    ensures Advances(HeadLine(c.head) + (c.data + CRLF) + tail, HeadLine(c.head) + (c.data + CRLF), tail)
  {
    var line, data := HeadLine(c.head), c.data + CRLF;
    HeadIsLine(c.head, |c.data|, data + tail);
    HeadSize(c.head, |c.data|);
    assert line + (data + tail) == line + data + tail;
    ChunkStep(line, data, tail, |c.data|);
  }

  lemma Regroup(line: seq<byte>, data: seq<byte>, later: seq<byte>, rest: seq<byte>)
    ensures line + data + CRLF + later == line + (data + CRLF) + later
    ensures line + data + CRLF + later + rest == line + (data + CRLF) + (later + rest)
  {
  }

  /** For every complete chunked body followed by any bytes, the reader returns precisely the raw body and
      leaves the rest unread. */
  lemma {:induction false} ReadsExactlyTheBody(m: Message, rest: seq<byte>)
    requires ValidMessage(m)
    ensures Reads(Render(m) + rest, Render(m), rest)
    decreases |m.chunks|
  {
    if m.chunks == [] {
      ReadsLast(m, rest);
    } else {
      var c, later := m.chunks[0], m.(chunks := m.chunks[1..]);
      var head, tail := HeadLine(c.head) + (c.data + CRLF), Render(later) + rest;
      ReadsExactlyTheBody(later, rest);
      ChunkAdvances(c, tail);
      ReadsMore(head + tail, head, tail, Render(later), rest);
      Regroup(HeadLine(c.head), c.data, Render(later), rest);
    }
  }

  lemma ReadsLast(m: Message, rest: seq<byte>)
    requires ValidMessage(m) && m.chunks == []
    ensures ReadChunks(Render(m) + rest) == Body(Render(m), rest)
  {
    var line, more := HeadLine(m.last), TrailerLines(m.trailers);
    assert Render(m) + rest == line + (more + rest);
    HeadIsLine(m.last, 0, more + rest);
    HeadSize(m.last, 0);
    assert (line + (more + rest))[..|line|] == line && (line + (more + rest))[|line|..] == more + rest;
    ReadsTrailers(m.trailers, rest);
  }
}
