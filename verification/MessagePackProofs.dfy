/** What the codec promises: the round trip, self-delimiting encodings, and the imperative decoder. */
module MessagePackProofs {
  import opened BigEndian
  import opened MessagePack
  import Utf8

  // ---------------------------------------------------------------- decoding a prefix

  /** On a prefix the header is read alike, unless it is cut short. */
  lemma HeaderOfPrefix(p: seq<byte>, d: seq<byte>, off: nat)
    requires p <= d && off <= |p|
    ensures Header(p, off) == Header(d, off) || Header(p, off) == NoShape(Truncated)
    ensures Header(p, off) == NoShape(Truncated) && !Header(d, off).NoShape? ==> Header(d, off).start > |p|
  {
    if off < |p| {
      assert p[off] == d[off];
      var layout := LayoutOf(d[off], off + 1);
      if !layout.Fixed? {
        var start := off + 1 + layout.width;
        if start <= |p| {
          assert p[off + 1..start] == d[off + 1..start];
        }
      }
    }
  }

  /** What reading a prefix of length `length` gives, beside what reading all the data gives: the same,
      unless the data read reaches beyond the prefix; then a truncation and nothing else. */
  ghost predicate Agree(onPrefix: Read, onData: Read, length: nat) {
    || onPrefix == onData
    || (onPrefix.Failed? && onPrefix.fault == Truncated && (onData.Got? ==> onData.next > length))
  }

  ghost predicate AgreeMany<T>(onPrefix: Many<T>, onData: Many<T>, length: nat) {
    || onPrefix == onData
    || (onPrefix.Stopped? && onPrefix.fault == Truncated && (onData.All? ==> onData.next > length))
  }

  /** The header is read from the prefix as from the data. */
  ghost predicate SameHeader(p: seq<byte>, d: seq<byte>, off: nat, h: Shape) {
    p <= d && off <= |p| && Header(p, off) == h && Header(d, off) == h
  }

  lemma TextOfPrefix(p: seq<byte>, d: seq<byte>, off: nat, count: nat, start: nat)
    requires SameHeader(p, d, off, Text(count, start))
    ensures Agree(ReadValue(p, off), ReadValue(d, off), |p|)
  {
    if start + count <= |p| {
      assert p[start..start + count] == d[start..start + count];
    }
  }

  lemma BlobOfPrefix(p: seq<byte>, d: seq<byte>, off: nat, count: nat, start: nat)
    requires SameHeader(p, d, off, Blob(count, start))
    ensures Agree(ReadValue(p, off), ReadValue(d, off), |p|)
  {
    if start + count <= |p| {
      assert p[start..start + count] == d[start..start + count];
    }
  }

  lemma ListOfPrefix(p: seq<byte>, d: seq<byte>, off: nat, count: nat, start: nat)
    requires SameHeader(p, d, off, Items(count, start))
    requires AgreeMany(ReadItems(p, start, count, []), ReadItems(d, start, count, []), |p|)
    ensures Agree(ReadValue(p, off), ReadValue(d, off), |p|)
  {
  }

  lemma DictOfPrefix(p: seq<byte>, d: seq<byte>, off: nat, count: nat, start: nat)
    requires SameHeader(p, d, off, Pairs(count, start))
    requires AgreeMany(ReadPairs(p, start, count, []), ReadPairs(d, start, count, []), |p|)
    ensures Agree(ReadValue(p, off), ReadValue(d, off), |p|)
  {
  }

  lemma LeafOfPrefix(p: seq<byte>, d: seq<byte>, off: nat, h: Shape)
    requires SameHeader(p, d, off, h) && (h.Leaf? || h.NoShape?)
    ensures Agree(ReadValue(p, off), ReadValue(d, off), |p|)
  {
  }

  lemma CutHeader(p: seq<byte>, d: seq<byte>, off: nat)
    requires p <= d && off <= |p| && Header(p, off) == NoShape(Truncated)
    requires !Header(d, off).NoShape? ==> Header(d, off).start > |p|
    ensures Agree(ReadValue(p, off), ReadValue(d, off), |p|)
  {
  }

  lemma {:induction false} ReadOfPrefix(p: seq<byte>, d: seq<byte>, off: nat)
    requires p <= d && off <= |p|
    ensures Agree(ReadValue(p, off), ReadValue(d, off), |p|)
    decreases |p| - off, 0
  {
    HeaderOfPrefix(p, d, off);
    var h := Header(d, off);
    if Header(p, off) != h {
      CutHeader(p, d, off);
    } else {
      match h {
        case Text(count, start) => TextOfPrefix(p, d, off, count, start);
        case Blob(count, start) => BlobOfPrefix(p, d, off, count, start);
        case Items(count, start) =>
          ItemsOfPrefix(p, d, start, count, []);
          ListOfPrefix(p, d, off, count, start);
        case Pairs(count, start) =>
          PairsOfPrefix(p, d, start, count, []);
          DictOfPrefix(p, d, off, count, start);
        case _ => LeafOfPrefix(p, d, off, h);
      }
    }
  }

  lemma {:induction false} ItemsOfPrefix(p: seq<byte>, d: seq<byte>, off: nat, count: nat, acc: seq<Value>)
    requires p <= d && off <= |p|
    ensures AgreeMany(ReadItems(p, off, count, acc), ReadItems(d, off, count, acc), |p|)
    decreases |p| - off, count + 1
  {
    if count > 0 {
      ReadOfPrefix(p, d, off);
      var r := ReadValue(p, off);
      if r.Got? {
        ItemsOfPrefix(p, d, r.next, count - 1, acc + [r.value]);
      }
    }
  }

  lemma {:induction false} PairOfPrefix(p: seq<byte>, d: seq<byte>, off: nat)
    requires p <= d && off <= |p|
    ensures AgreeMany(ReadPair(p, off), ReadPair(d, off), |p|)
    decreases |p| - off, 1
  {
    ReadOfPrefix(p, d, off);
    var r := ReadValue(p, off);
    if r.Got? {
      ReadOfPrefix(p, d, r.next);
    }
  }

  lemma {:induction false} PairsOfPrefix(p: seq<byte>, d: seq<byte>, off: nat, count: nat, acc: seq<Entry>)
    requires p <= d && off <= |p|
    ensures AgreeMany(ReadPairs(p, off, count, acc), ReadPairs(d, off, count, acc), |p|)
    decreases |p| - off, count + 1
  {
    if count > 0 {
      PairOfPrefix(p, d, off);
      var r := ReadPair(p, off);
      if r.All? {
        PairsOfPrefix(p, d, r.next, count - 1, Put(acc, r.all[0].key, r.all[0].val));
      }
    }
  }

  /** The decoder is self-delimiting: what a read returns, and how far it goes, is fixed by the bytes
      it consumed; nothing behind them can change it. */
  lemma SelfDelimiting(data: seq<byte>, off: nat, suffix: seq<byte>)
    requires off <= |data|
    requires ReadValue(data, off).Got?
    ensures ReadValue(data + suffix, off) == ReadValue(data, off)
    ensures ReadValue(data[..ReadValue(data, off).next], off) == ReadValue(data, off)
  {
    ReadOfPrefix(data, data + suffix, off);
    ReadOfPrefix(data[..ReadValue(data, off).next], data, off);
  }

  /** Every strict prefix of an accepted encoding is refused, and always as truncated. */
  lemma StrictPrefixIsTruncated(data: seq<byte>, k: nat)
    requires Unpack(data).Accepted? && k < |data|
    ensures Unpack(data[..k]) == Rejected(Truncated)
  {
    ReadOfPrefix(data[..k], data, 0);
  }

  /** An accepted encoding followed by anything at all is refused as trailing. */
  lemma SuffixIsTrailing(data: seq<byte>, suffix: seq<byte>)
    requires Unpack(data).Accepted? && suffix != []
    ensures Unpack(data + suffix) == Rejected(Trailing)
  {
    SelfDelimiting(data, 0, suffix);
  }

  // ---------------------------------------------------------------- round trip

  /** `b` stands in `data` at `off`. */
  ghost predicate At(data: seq<byte>, off: nat, b: seq<byte>) {
    off + |b| <= |data| && forall i :: 0 <= i < |b| ==> data[off + i] == b[i]
  }

  lemma FirstAt(data: seq<byte>, off: nat, b: seq<byte>)
    requires At(data, off, b) && b != []
    ensures data[off] == b[0]
  {
    assert data[off + 0] == b[0];
  }

  lemma SplitAt(data: seq<byte>, off: nat, a: seq<byte>, b: seq<byte>)
    requires At(data, off, a + b)
    ensures At(data, off, a) && At(data, off + |a|, b)
  {
    forall i | 0 <= i < |a| ensures data[off + i] == a[i] {
      assert (a + b)[i] == a[i];
    }
    forall i | 0 <= i < |b| ensures data[off + |a| + i] == b[i] {
      assert (a + b)[|a| + i] == b[i] && data[off + (|a| + i)] == b[i];
    }
  }

  lemma HeaderOfField(data: seq<byte>, off: nat, marker: byte, value: nat, width: nat)
    requires value < Span(width)
    requires At(data, off, Field(marker, value, width))
    requires var l := LayoutOf(marker, off + 1); !l.Fixed? && l.width == width
    ensures Header(data, off) == WithField(LayoutOf(marker, off + 1), ToBytes(value, width), off + 1 + width)
    ensures FromBytes(ToBytes(value, width)) == value
  {
    SplitAt(data, off, [marker], ToBytes(value, width));
    FirstAt(data, off, [marker]);
    assert data[off + 1..off + 1 + width] == ToBytes(value, width);
    WriteThenRead(value, width);
  }

  lemma HeaderOfInt(data: seq<byte>, off: nat, i: int)
    requires PackInt(i).Packed? && At(data, off, PackInt(i).bytes)
    ensures Header(data, off) == Leaf(Int(i), off + |PackInt(i).bytes|)
  {
    SpanValues();
    if i < 128 {
      FirstAt(data, off, [i]);
    } else if i < 0x100 {
      HeaderOfField(data, off, 0xCC, i, 1);
    } else if i < 0x1_0000 {
      HeaderOfField(data, off, 0xCD, i, 2);
    } else if i < 0x1_0000_0000 {
      HeaderOfField(data, off, 0xCE, i, 4);
    } else {
      HeaderOfField(data, off, 0xCF, i, 8);
    }
  }

  lemma HeaderOfLength(data: seq<byte>, off: nat, length: nat)
    requires PackLength(length).Packed? && At(data, off, PackLength(length).bytes)
    ensures Header(data, off) == Text(length, off + |PackLength(length).bytes|)
  {
    SpanValues();
    if length < 32 {
      FirstAt(data, off, [0xA0 + length]);
    } else if length < 0x100 {
      HeaderOfField(data, off, 0xD9, length, 1);
    } else if length < 0x1_0000 {
      HeaderOfField(data, off, 0xDA, length, 2);
    } else {
      HeaderOfField(data, off, 0xDB, length, 4);
    }
  }

  lemma TextOfBody(data: seq<byte>, start: nat, body: seq<byte>, text: seq<Utf8.CodePoint>)
    requires At(data, start, body) && Utf8.Decode(body) == Utf8.Text(text)
    ensures TextAt(data, |body|, start) == Got(Str(text), start + |body|, 1)
  {
    assert data[start..start + |body|] == body;
  }

  lemma TextParts(text: seq<Utf8.CodePoint>) returns (head: seq<byte>, body: seq<byte>)
    requires PackText(text).Packed?
    ensures PackText(text).bytes == head + body && PackLength(|body|) == Packed(head)
    ensures Utf8.Decode(body) == Utf8.Text(text)
  {
    body := Utf8.Encode(text).bytes;
    head := PackLength(|body|).bytes;
    Utf8.EncodeThenDecode(text);
  }

  lemma ReadOfParts(data: seq<byte>, off: nat, head: seq<byte>, body: seq<byte>, text: seq<Utf8.CodePoint>)
    requires At(data, off, head + body) && PackLength(|body|) == Packed(head)
    requires Utf8.Decode(body) == Utf8.Text(text)
    ensures ReadValue(data, off) == Got(Str(text), off + |head + body|, 1)
  {
    SplitAt(data, off, head, body);
    TextOfBody(data, off + |head|, body, text);
    HeaderOfLength(data, off, |body|);
  }

  lemma ReadOfText(data: seq<byte>, off: nat, text: seq<Utf8.CodePoint>)
    requires PackText(text).Packed? && At(data, off, PackText(text).bytes)
    ensures ReadValue(data, off) == Got(Str(text), off + |PackText(text).bytes|, 1)
  {
    var head, body := TextParts(text);
    ReadOfParts(data, off, head, body, text);
  }

  lemma HeaderOfCount(data: seq<byte>, off: nat, count: nat, nibble: byte, marker: byte)
    requires (nibble == 0x90 && marker == 0xDC) || (nibble == 0x80 && marker == 0xDE)
    requires PackCount(count, nibble, marker).Packed? && At(data, off, PackCount(count, nibble, marker).bytes)
    ensures var start := off + |PackCount(count, nibble, marker).bytes|;
            Header(data, off) == if nibble == 0x90 then Items(count, start) else Pairs(count, start)
  {
    SpanValues();
    if count < 16 {
      FirstAt(data, off, [nibble + count]);
    } else {
      HeaderOfField(data, off, marker, count, 2);
    }
  }

  /** A read at `off` gives `v` and stops at `next`. */
  ghost predicate ValueIs(data: seq<byte>, off: nat, v: Value, next: nat)
    requires off <= |data|
  {
    var r := ReadValue(data, off);
    r.Got? && r.value == v && r.next == next
  }

  ghost predicate PairIs(data: seq<byte>, off: nat, e: Entry, next: nat)
    requires off <= |data|
  {
    var r := ReadPair(data, off);
    r.All? && r.all == [e] && r.next == next
  }

  /** Wherever a packed value stands, the decoder reads exactly that value and stops right behind it. */
  lemma {:induction false} ReadOfPacked(data: seq<byte>, off: nat, v: Value)
    requires IsPython(v) && Pack(v).Packed? && At(data, off, Pack(v).bytes)
    ensures ValueIs(data, off, v, off + |Pack(v).bytes|)
    decreases v, 0
  {
    match v {
      case List(items) => ListOfPacked(data, off, items);
      case Dict(entries) => DictOfPacked(data, off, entries);
      case _ => LeafOfPacked(data, off, v);
    }
  }

  lemma LeafOfPacked(data: seq<byte>, off: nat, v: Value)
    requires !v.List? && !v.Dict? && Pack(v).Packed? && At(data, off, Pack(v).bytes)
    ensures ValueIs(data, off, v, off + |Pack(v).bytes|)
  {
    match v {
      case Nil => FirstAt(data, off, [0xC0]);
      case Bool(b) => FirstAt(data, off, Pack(v).bytes);
      case Int(i) => HeaderOfInt(data, off, i);
      case Str(text) => ReadOfText(data, off, text);
      case _ => assert false;
    }
  }

  lemma {:induction false} ListOfPacked(data: seq<byte>, off: nat, items: seq<Value>)
    requires GoodItems(items)
    requires Pack(List(items)).Packed? && At(data, off, Pack(List(items)).bytes)
    ensures ValueIs(data, off, List(items), off + |Pack(List(items)).bytes|)
    decreases items, 2
  {
    var head := PackCount(|items|, 0x90, 0xDC).bytes;
    SplitAt(data, off, head, PackItems(items).bytes);
    ItemsOfPacked(data, off + |head|, items, []);
    ReadOfItems(data, off, items);
  }

  lemma {:induction false} DictOfPacked(data: seq<byte>, off: nat, entries: seq<Entry>)
    requires GoodEntries(entries) && DistinctKeys(entries)
    requires Pack(Dict(entries)).Packed? && At(data, off, Pack(Dict(entries)).bytes)
    ensures ValueIs(data, off, Dict(entries), off + |Pack(Dict(entries)).bytes|)
    decreases entries, 2
  {
    var head := PackCount(|entries|, 0x80, 0xDE).bytes;
    SplitAt(data, off, head, PackEntries(entries).bytes);
    assert [] + entries == entries;
    PairsOfPacked(data, off + |head|, entries, []);
    ReadOfPairs(data, off, entries);
  }

  lemma ReadOfItems(data: seq<byte>, off: nat, items: seq<Value>)
    requires PackCount(|items|, 0x90, 0xDC).Packed? && At(data, off, PackCount(|items|, 0x90, 0xDC).bytes)
    requires PackItems(items).Packed?
    requires var start := off + |PackCount(|items|, 0x90, 0xDC).bytes|;
             ItemsAre(data, start, |items|, [], [] + items, start + |PackItems(items).bytes|)
    ensures ValueIs(data, off, List(items), off + |Join(PackCount(|items|, 0x90, 0xDC), PackItems(items)).bytes|)
  {
    HeaderOfCount(data, off, |items|, 0x90, 0xDC);
    assert [] + items == items;
  }

  lemma ReadOfPairs(data: seq<byte>, off: nat, entries: seq<Entry>)
    requires PackCount(|entries|, 0x80, 0xDE).Packed? && At(data, off, PackCount(|entries|, 0x80, 0xDE).bytes)
    requires PackEntries(entries).Packed?
    requires var start := off + |PackCount(|entries|, 0x80, 0xDE).bytes|;
             PairsAre(data, start, |entries|, [], [] + entries, start + |PackEntries(entries).bytes|)
    ensures ValueIs(data, off, Dict(entries),
                    off + |Join(PackCount(|entries|, 0x80, 0xDE), PackEntries(entries)).bytes|)
  {
    HeaderOfCount(data, off, |entries|, 0x80, 0xDE);
    assert [] + entries == entries;
  }

  /** The items read as `all`, ending at `next`. */
  ghost predicate ItemsAre(data: seq<byte>, off: nat, count: nat, acc: seq<Value>, all: seq<Value>, next: nat)
    requires off <= |data|
  {
    var r := ReadItems(data, off, count, acc);
    r.All? && r.all == all && r.next == next
  }

  ghost predicate PairsAre(data: seq<byte>, off: nat, count: nat, acc: seq<Entry>, all: seq<Entry>, next: nat)
    requires off <= |data|
  {
    var r := ReadPairs(data, off, count, acc);
    r.All? && r.all == all && r.next == next
  }

  lemma PackItemsCons(items: seq<Value>)
    requires items != [] && PackItems(items).Packed?
    ensures Pack(items[0]).Packed? && PackItems(items[1..]).Packed?
    ensures PackItems(items).bytes == Pack(items[0]).bytes + PackItems(items[1..]).bytes
  {
  }

  ghost predicate GoodItems(items: seq<Value>) {
    forall i :: 0 <= i < |items| ==> IsPython(items[i])
  }

  lemma GoodRest(items: seq<Value>)
    requires GoodItems(items) && items != []
    ensures IsPython(items[0]) && GoodItems(items[1..])
  {
    forall i | 0 <= i < |items[1..]| ensures IsPython(items[1..][i]) {
      assert items[1..][i] == items[i + 1];
    }
  }

  lemma NoItems(data: seq<byte>, off: nat, acc: seq<Value>)
    requires off <= |data|
    ensures ItemsAre(data, off, 0, acc, acc, off)
  {
  }

  /** The first item's bytes are those of `first`, the others' those of `rest`. */
  lemma ItemsSplit(data: seq<byte>, off: nat, items: seq<Value>) returns (first: seq<byte>, rest: seq<byte>)
    requires items != [] && PackItems(items).Packed? && At(data, off, PackItems(items).bytes)
    ensures Pack(items[0]) == Packed(first) && PackItems(items[1..]) == Packed(rest)
    ensures At(data, off, first) && At(data, off + |first|, rest)
    ensures |PackItems(items).bytes| == |first| + |rest|
  {
    PackItemsCons(items);
    first, rest := Pack(items[0]).bytes, PackItems(items[1..]).bytes;
    SplitAt(data, off, first, rest);
  }

  lemma {:induction false} ItemsOfPacked(data: seq<byte>, off: nat, items: seq<Value>, acc: seq<Value>)
    requires GoodItems(items)
    requires PackItems(items).Packed? && At(data, off, PackItems(items).bytes)
    ensures ItemsAre(data, off, |items|, acc, acc + items, off + |PackItems(items).bytes|)
    decreases items, 1
  {
    if items == [] {
      assert acc + items == acc;
      NoItems(data, off, acc);
    } else {
      GoodRest(items);
      var first, rest := ItemsSplit(data, off, items);
      var mid := off + |first|;
      ReadOfPacked(data, off, items[0]);
      ItemsOfPacked(data, mid, items[1..], acc + [items[0]]);
      assert acc + [items[0]] + items[1..] == acc + items;
      ItemsCons(data, off, |items|, acc, items[0], mid, acc + items, mid + |rest|);
    }
  }

  ghost predicate GoodEntries(entries: seq<Entry>) {
    forall i :: 0 <= i < |entries| ==> Hashable(entries[i].key) && IsPython(entries[i].key) && IsPython(entries[i].val)
  }

  lemma GoodTail(entries: seq<Entry>)
    requires GoodEntries(entries) && entries != []
    ensures GoodEntries(entries[1..])
    ensures Hashable(entries[0].key) && IsPython(entries[0].key) && IsPython(entries[0].val)
  {
    forall i | 0 <= i < |entries[1..]|
      ensures Hashable(entries[1..][i].key) && IsPython(entries[1..][i].key) && IsPython(entries[1..][i].val)
    {
      assert entries[1..][i] == entries[i + 1];
    }
  }

  lemma {:induction false} PairOfPacked(data: seq<byte>, off: nat, e: Entry)
    requires IsPython(e.key) && Hashable(e.key) && IsPython(e.val)
    requires PackEntry(e).Packed? && At(data, off, PackEntry(e).bytes)
    ensures PairIs(data, off, e, off + |PackEntry(e).bytes|)
    decreases e, 0
  {
    SplitAt(data, off, Pack(e.key).bytes, Pack(e.val).bytes);
    ReadOfPacked(data, off, e.key);
    ReadOfPacked(data, off + |Pack(e.key).bytes|, e.val);
  }

  lemma PairsCons(
      data: seq<byte>, off: nat, count: nat, acc: seq<Entry>, e: Entry, mid: nat, all: seq<Entry>, next: nat)
    requires off <= mid <= |data| && count > 0
    requires PairIs(data, off, e, mid)
    requires PairsAre(data, mid, count - 1, Put(acc, e.key, e.val), all, next)
    ensures PairsAre(data, off, count, acc, all, next)
  {
  }

  lemma ItemsCons(
      data: seq<byte>, off: nat, count: nat, acc: seq<Value>, v: Value, mid: nat, all: seq<Value>, next: nat)
    requires off <= mid <= |data| && count > 0
    requires ValueIs(data, off, v, mid)
    requires ItemsAre(data, mid, count - 1, acc + [v], all, next)
    ensures ItemsAre(data, off, count, acc, all, next)
  {
  }

  lemma {:induction false} PairsOfPacked(data: seq<byte>, off: nat, entries: seq<Entry>, acc: seq<Entry>)
    requires GoodEntries(entries) && DistinctKeys(acc + entries)
    requires PackEntries(entries).Packed? && At(data, off, PackEntries(entries).bytes)
    ensures PairsAre(data, off, |entries|, acc, acc + entries, off + |PackEntries(entries).bytes|)
    decreases entries, 1
  {
    if entries != [] {
      var e := entries[0];
      var first := PackEntry(e).bytes;
      SplitAt(data, off, first, PackEntries(entries[1..]).bytes);
      assert acc + [e] + entries[1..] == acc + entries;
      GoodTail(entries);
      PairsOfPacked(data, off + |first|, entries[1..], acc + [e]);
      PairOfPacked(data, off, e);
      PutFreshEntry(acc, entries);
      PairsCons(data, off, |entries|, acc, e, off + |first|, acc + entries, off + |PackEntries(entries).bytes|);
    } else {
      assert acc + entries == acc;
    }
  }

  lemma PutFreshEntry(acc: seq<Entry>, entries: seq<Entry>)
    requires DistinctKeys(acc + entries) && entries != []
    ensures Put(acc, entries[0].key, entries[0].val) == acc + [entries[0]]
  {
    forall i | 0 <= i < |acc| ensures KeyClass(acc[i].key) != KeyClass(entries[0].key) {
      assert (acc + entries)[i] == acc[i] && (acc + entries)[|acc|] == entries[0];
    }
    PutFresh(acc, entries[0].key, entries[0].val);
  }

  /** `unpack(pack_rpc_value(v)) == v` for every value the encoder accepts. */
  lemma RoundTrip(v: Value)
    requires IsPython(v) && Pack(v).Packed?
    ensures Unpack(Pack(v).bytes) == Accepted(v)
  {
    var data := Pack(v).bytes;
    assert data[0..0 + |data|] == data;
    ReadOfPacked(data, 0, v);
  }

  /** No accepted byte string is a proper prefix of another. */
  lemma AcceptedIsPrefixFree(a: seq<byte>, b: seq<byte>)
    requires Unpack(a).Accepted? && Unpack(b).Accepted? && a <= b
    ensures a == b
  {
    if |a| < |b| {
      assert b[..|a|] == a;
      StrictPrefixIsTruncated(b, |a|);
    }
  }

  /** Two values with one encoding are one value, and no encoding is a prefix of another. */
  lemma PackingIsPrefixFree(v: Value, w: Value)
    requires IsPython(v) && Pack(v).Packed? && IsPython(w) && Pack(w).Packed?
    requires Pack(v).bytes <= Pack(w).bytes
    ensures v == w
  {
    RoundTrip(v);
    RoundTrip(w);
    AcceptedIsPrefixFree(Pack(v).bytes, Pack(w).bytes);
  }

  // ---------------------------------------------------------------- the imperative decoder

  /** A list being read will end as `total`: `left` items to go at `off`, after `calls` reads. */
  ghost predicate ItemsPending(total: Many<Value>, data: seq<byte>, calls: nat, off: nat, left: nat, acc: seq<Value>)
    requires off <= |data|
  {
    total == AfterReads(calls, ReadItems(data, off, left, acc))
  }

  ghost predicate PairsPending(total: Many<Entry>, data: seq<byte>, calls: nat, off: nat, left: nat, acc: seq<Entry>)
    requires off <= |data|
  {
    total == AfterReads(calls, ReadPairs(data, off, left, acc))
  }

  lemma ItemsStep(total: Many<Value>, data: seq<byte>, calls: nat, off: nat, left: nat, acc: seq<Value>, r: Read)
    requires off <= |data| && left > 0 && r == ReadValue(data, off)
    requires ItemsPending(total, data, calls, off, left, acc)
    ensures r.Failed? ==> total == Stopped(r.fault, calls + r.calls)
    ensures r.Got? ==> ItemsPending(total, data, calls + r.calls, r.next, left - 1, acc + [r.value])
  {
  }

  lemma PairsStep(total: Many<Entry>, data: seq<byte>, calls: nat, off: nat, left: nat, acc: seq<Entry>, r: Many<Entry>)
    requires off <= |data| && left > 0 && r == ReadPair(data, off)
    requires PairsPending(total, data, calls, off, left, acc)
    ensures r.Stopped? ==> total == Stopped(r.fault, calls + r.calls)
    ensures r.All? ==>
              PairsPending(total, data, calls + r.calls, r.next, left - 1, Put(acc, r.all[0].key, r.all[0].val))
  {
  }

  /** `unpack`'s closure: one shared offset that every nested `read()` advances. */
  class Decoder {
    const data: seq<byte>
    var offset: nat
    /** how many times `read()` was entered */
    ghost var entered: nat

    constructor (input: seq<byte>)
      ensures data == input && offset == 0 && entered == 0
    {
      data := input;
      offset := 0;
      entered := 0;
    }

    method TakeHeader() returns (h: Shape)
      requires offset <= |data|
      modifies this`offset
      ensures h == Header(data, old(offset))
      ensures !h.NoShape? ==> offset == h.start
      ensures offset <= |data|
    {
      if offset == |data| {
        return NoShape(Truncated);
      }
      var layout := LayoutOf(data[offset], offset + 1);
      offset := offset + 1;
      if layout.Fixed? {
        return layout.shape;
      }
      if offset + layout.width > |data| {
        return NoShape(Truncated);
      }
      var field := data[offset..offset + layout.width];
      offset := offset + layout.width;
      h := WithField(layout, field, offset);
    }

    method Read() returns (r: Read)
      requires offset <= |data|
      modifies this
      ensures r == ReadValue(data, old(offset))
      ensures r.Got? ==> offset == r.next
      ensures offset <= |data|
      ensures entered == old(entered) + r.calls
      decreases |data| - offset, 0
    {
      entered := entered + 1;
      var h := TakeHeader();
      match h {
        case NoShape(fault) => r := Failed(fault, 1);
        case Leaf(value, start) => r := Got(value, start, 1);
        case Text(count, start) =>
          r := TextAt(data, count, start);
          if r.Got? { offset := r.next; }
        case Blob(count, start) =>
          r := BlobAt(data, count, start);
          if r.Got? { offset := r.next; }
        case Items(count, start) =>
          var m := ReadList(count);
          r := if m.All? then Got(List(m.all), m.next, m.calls + 1) else Failed(m.fault, m.calls + 1);
        case Pairs(count, start) =>
          var m := ReadDict(count);
          r := if m.All? then Got(Dict(m.all), m.next, m.calls + 1) else Failed(m.fault, m.calls + 1);
      }
    }

    method ReadList(count: nat) returns (r: Many<Value>)
      requires offset <= |data|
      modifies this
      ensures r == ReadItems(data, old(offset), count, [])
      ensures r.All? ==> offset == r.next
      ensures offset <= |data|
      ensures entered == old(entered) + r.calls
      decreases |data| - offset, 1
    {
      ghost var total := ReadItems(data, offset, count, []);
      var items: seq<Value>, calls: nat, i := [], 0, 0;
      while i < count
        invariant i <= count && old(offset) <= offset <= |data|
        invariant entered == old(entered) + calls
        invariant ItemsPending(total, data, calls, offset, count - i, items)
      {
        ghost var off := offset;
        var v := Read();
        ItemsStep(total, data, calls, off, count - i, items, v);
        if v.Failed? {
          return Stopped(v.fault, calls + v.calls);
        }
        items, calls, i := items + [v.value], calls + v.calls, i + 1;
      }
      r := All(items, offset, calls);
    }

    method ReadEntry() returns (r: Many<Entry>)
      requires offset <= |data|
      modifies this
      ensures r == ReadPair(data, old(offset))
      ensures r.All? ==> offset == r.next
      ensures offset <= |data|
      ensures entered == old(entered) + r.calls
      decreases |data| - offset, 1
    {
      var k := Read();
      if k.Failed? {
        return Stopped(k.fault, k.calls);
      }
      var v := Read();
      if v.Failed? {
        return Stopped(v.fault, k.calls + v.calls);
      }
      if !Hashable(k.value) {
        return Stopped(UnhashableKey, k.calls + v.calls);
      }
      r := All([Entry(k.value, v.value)], offset, k.calls + v.calls);
    }

    method ReadDict(count: nat) returns (r: Many<Entry>)
      requires offset <= |data|
      modifies this
      ensures r == ReadPairs(data, old(offset), count, [])
      ensures r.All? ==> offset == r.next
      ensures offset <= |data|
      ensures entered == old(entered) + r.calls
      decreases |data| - offset, 2
    {
      ghost var total := ReadPairs(data, offset, count, []);
      var entries: seq<Entry>, calls: nat, i := [], 0, 0;
      while i < count
        invariant i <= count && old(offset) <= offset <= |data|
        invariant entered == old(entered) + calls
        invariant PairsPending(total, data, calls, offset, count - i, entries)
      {
        ghost var off := offset;
        var e := ReadEntry();
        PairsStep(total, data, calls, off, count - i, entries, e);
        if e.Stopped? {
          return Stopped(e.fault, calls + e.calls);
        }
        entries, calls, i := Put(entries, e.all[0].key, e.all[0].val), calls + e.calls, i + 1;
      }
      r := All(entries, offset, calls);
    }
  }

  /** `unpack(data)` as the gate runs it. It stops on every input after at most one read more than
      there are bytes. */
  method RunUnpack(data: seq<byte>) returns (r: Unpacked, ghost entered: nat)
    ensures r == Unpack(data)
    ensures entered <= |data| + 1
  {
    var decoder := new Decoder(data);
    var first := decoder.Read();
    entered := decoder.entered;
    if first.Failed? {
      return Rejected(first.fault), entered;
    }
    if decoder.offset != |data| {
      return Rejected(Trailing), entered;
    }
    r := Accepted(first.value);
  }
}
