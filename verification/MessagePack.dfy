/** The gate's MessagePack request encoder and its read-only decoder
    (MessagePack specification, section "Formats"). */
module MessagePack {
  import opened BigEndian
  import Utf8

  /** The Python values the codec exchanges. A dictionary keeps its insertion order.
      A float keeps its IEEE bytes. */
  datatype Value =
    | Nil
    | Bool(b: bool)
    | Int(i: int)
    | Float(bits: seq<byte>)
    | Str(text: seq<Utf8.CodePoint>)
    | List(items: seq<Value>)
    | Dict(entries: seq<Entry>)

  datatype Entry = Entry(key: Value, val: Value)

  // ---------------------------------------------------------------- dictionaries

  predicate Hashable(v: Value) {
    !v.List? && !v.Dict?
  }

  /** Python dictionary keys are compared with `True == 1` and `False == 0`. */
  function KeyClass(v: Value): (k: Value)
  {
    if v.Bool? then Int(if v.b then 1 else 0) else v
  }

  predicate HasKey(entries: seq<Entry>, key: Value) {
    exists i :: 0 <= i < |entries| && KeyClass(entries[i].key) == KeyClass(key)
  }

  /** `d[key] = val`: an equal key keeps its place and its first spelling. */
  function Put(entries: seq<Entry>, key: Value, val: Value): (r: seq<Entry>)
  {
    if entries == [] then [Entry(key, val)]
    else if KeyClass(entries[0].key) == KeyClass(key) then [Entry(entries[0].key, val)] + entries[1..]
    else [entries[0]] + Put(entries[1..], key, val)
  }

  lemma {:induction false} PutFresh(entries: seq<Entry>, key: Value, val: Value)
    requires !HasKey(entries, key)
    ensures Put(entries, key, val) == entries + [Entry(key, val)]
  {
    if entries != [] {
      forall i | 0 <= i < |entries[1..]| ensures KeyClass(entries[1..][i].key) != KeyClass(key) {
        assert entries[1..][i] == entries[i + 1];
      }
      assert KeyClass(entries[0].key) != KeyClass(key);
      PutFresh(entries[1..], key, val);
    }
  }

  predicate DistinctKeys(entries: seq<Entry>) {
    forall i, j :: 0 <= i < j < |entries| ==> KeyClass(entries[i].key) != KeyClass(entries[j].key)
  }

  /** What Python guarantees of any value: dictionary keys are hashable and pairwise unequal. */
  predicate IsPython(v: Value)
    decreases v
  {
    match v
    case List(items) => forall i :: 0 <= i < |items| ==> IsPython(items[i])
    case Dict(entries) =>
      && DistinctKeys(entries)
      && (forall i :: 0 <= i < |entries| ==> Hashable(entries[i].key) && IsPython(entries[i].key))
      && (forall i :: 0 <= i < |entries| ==> IsPython(entries[i].val))
    case _ => true
  }

  // ---------------------------------------------------------------- encoder

  datatype Packed = Packed(bytes: seq<byte>) | Unpackable

  /** A marker followed by a big-endian field. */
  function Field(marker: byte, value: nat, width: nat): (s: seq<byte>)
    ensures |s| == 1 + width
  {
    [marker] + ToBytes(value, width)
  }

  function PackInt(i: int): (r: Packed)
  {
    if i < 0 then Unpackable
    else if i < 128 then Packed([i])
    else if i < 0x100 then Packed(Field(0xCC, i, 1))
    else if i < 0x1_0000 then Packed(Field(0xCD, i, 2))
    else if i < 0x1_0000_0000 then Packed(Field(0xCE, i, 4))
    else if i < 0x1_0000_0000_0000_0000 then Packed(Field(0xCF, i, 8))
    else Unpackable
  }

  function PackText(text: seq<Utf8.CodePoint>): (r: Packed)
  {
    match Utf8.Encode(text)
    case Unencodable => Unpackable
    case Bytes(body) => Join(PackLength(|body|), Packed(body))
  }

  /** The header of a string of `length` bytes. */
  function PackLength(length: nat): (r: Packed)
  {
    if length < 32 then Packed([0xA0 + length])
    else if length < 0x100 then Packed(Field(0xD9, length, 1))
    else if length < 0x1_0000 then Packed(Field(0xDA, length, 2))
    else if length < 0x1_0000_0000 then Packed(Field(0xDB, length, 4))
    else Unpackable
  }

  /** The header of a container: one nibble, or a two-byte count. */
  function PackCount(count: nat, nibble: byte, marker: byte): (r: Packed)
    requires nibble <= 0xF0
  {
    if count < 16 then Packed([nibble + count])
    else if count < 0x1_0000 then Packed(Field(marker, count, 2))
    else Unpackable
  }

  function Join(a: Packed, b: Packed): (r: Packed)
  {
    if a.Packed? && b.Packed? then Packed(a.bytes + b.bytes) else Unpackable
  }

  function Pack(v: Value): (r: Packed)
    decreases v, 0
  {
    match v
    case Nil => Packed([0xC0])
    case Bool(b) => Packed([if b then 0xC3 else 0xC2])
    case Int(i) => PackInt(i)
    case Float(_) => Unpackable
    case Str(text) => PackText(text)
    case List(items) => Join(PackCount(|items|, 0x90, 0xDC), PackItems(items))
    case Dict(entries) => Join(PackCount(|entries|, 0x80, 0xDE), PackEntries(entries))
  }

  function PackItems(items: seq<Value>): (r: Packed)
    decreases items, 1
  {
    if items == [] then Packed([]) else Join(Pack(items[0]), PackItems(items[1..]))
  }

  function PackEntries(entries: seq<Entry>): (r: Packed)
    decreases entries, 1
  {
    if entries == [] then Packed([])
    else Join(PackEntry(entries[0]), PackEntries(entries[1..]))
  }

  function PackEntry(e: Entry): (r: Packed)
    decreases e, 0
  {
    Join(Pack(e.key), Pack(e.val))
  }

  // ---------------------------------------------------------------- decoder

  datatype Fault = Truncated | BadText | UnhashableKey | Unsupported(marker: byte) | Trailing

  /** What a marker byte and the length field behind it announce. `start` is the offset behind them. */
  datatype Shape =
    | Leaf(value: Value, start: nat)
    | Text(count: nat, start: nat)
    | Blob(count: nat, start: nat)
    | Items(count: nat, start: nat)
    | Pairs(count: nat, start: nat)
    | NoShape(fault: Fault)

  datatype Layout =
    | Fixed(shape: Shape)
    | UnsignedField(width: nat) | SignedField(width: nat) | FloatField(width: nat)
    | TextField(width: nat) | BlobField(width: nat) | ItemsField(width: nat) | PairsField(width: nat)

  /** The marker families, in the order the decoder tests them; `start` is the offset behind the marker. */
  function LayoutOf(tag: byte, start: nat): (l: Layout)
    ensures l.Fixed? && !l.shape.NoShape? ==> l.shape.start == start
    ensures !l.Fixed? ==> 1 <= l.width <= 8
  {
    if tag < 0x80 then Fixed(Leaf(Int(tag), start))
    else if tag >= 0xE0 then Fixed(Leaf(Int(tag - 256), start))
    else if 0xA0 <= tag <= 0xBF then Fixed(Text(tag - 0xA0, start))
    else if 0x90 <= tag <= 0x9F then Fixed(Items(tag - 0x90, start))
    else if 0x80 <= tag <= 0x8F then Fixed(Pairs(tag - 0x80, start))
    else if tag == 0xC0 then Fixed(Leaf(Nil, start))
    else if tag == 0xC2 || tag == 0xC3 then Fixed(Leaf(Bool(tag == 0xC3), start))
    else if 0xCC <= tag <= 0xCF then UnsignedField(Width(tag - 0xCC))
    else if 0xD0 <= tag <= 0xD3 then SignedField(Width(tag - 0xD0))
    else if tag == 0xCA || tag == 0xCB then FloatField(if tag == 0xCA then 4 else 8)
    else if 0xD9 <= tag <= 0xDB then TextField(Width(tag - 0xD9))
    else if 0xC4 <= tag <= 0xC6 then BlobField(Width(tag - 0xC4))
    else if tag == 0xDC || tag == 0xDD then ItemsField(if tag == 0xDC then 2 else 4)
    else if tag == 0xDE || tag == 0xDF then PairsField(if tag == 0xDE then 2 else 4)
    else Fixed(NoShape(Unsupported(tag)))
  }

  /** `1 << n` for the field widths. */
  function Width(n: int): (w: nat)
    requires 0 <= n <= 3
    ensures 1 <= w <= 8
  {
    if n == 0 then 1 else if n == 1 then 2 else if n == 2 then 4 else 8
  }

  function Header(data: seq<byte>, off: nat): (h: Shape)
    requires off <= |data|
    ensures !h.NoShape? ==> off < h.start <= |data|
  {
    if off == |data| then NoShape(Truncated)
    else
      match LayoutOf(data[off], off + 1)
      case Fixed(shape) => shape
      case layout =>
        var start := off + 1 + layout.width;
        if start > |data| then NoShape(Truncated) else WithField(layout, data[off + 1..start], start)
  }

  /** The shape whose length or value field is `field`. */
  function WithField(layout: Layout, field: seq<byte>, start: nat): (h: Shape)
    ensures !h.NoShape? ==> h.start == start
  {
    match layout
    case Fixed(shape) => NoShape(Truncated)
    case UnsignedField(_) => Leaf(Int(FromBytes(field)), start)
    case SignedField(_) => Leaf(Int(FromSigned(field)), start)
    case FloatField(_) => Leaf(Float(field), start)
    case TextField(_) => Text(FromBytes(field), start)
    case BlobField(_) => Blob(FromBytes(field), start)
    case ItemsField(_) => Items(FromBytes(field), start)
    case PairsField(_) => Pairs(FromBytes(field), start)
  }

  /** One `read()`: the value and the offset behind it, or the fault raised.
      `calls` counts the `read()` calls made, this one included. */
  datatype Read = Got(value: Value, next: nat, calls: nat) | Failed(fault: Fault, calls: nat)
  datatype Many<T> = All(all: seq<T>, next: nat, calls: nat) | Stopped(fault: Fault, calls: nat)

  function HexDigit(n: int): (c: Utf8.CodePoint)
    requires 0 <= n < 16
  {
    if n < 10 then 48 + n else 87 + n
  }

  function Hex(s: seq<byte>): (text: seq<Utf8.CodePoint>)
  {
    if s == [] then [] else [HexDigit(s[0] / 16), HexDigit(s[0] % 16)] + Hex(s[1..])
  }

  function Ascii(s: string): (text: seq<Utf8.CodePoint>)
    requires forall i :: 0 <= i < |s| ==> s[i] as int < 128
  {
    seq(|s|, i requires 0 <= i < |s| => s[i] as int)
  }

  function TextAt(data: seq<byte>, count: nat, start: nat): (r: Read)
    requires start <= |data|
  {
    if start + count > |data| then Failed(Truncated, 1)
    else
      match Utf8.Decode(data[start..start + count])
      case Malformed => Failed(BadText, 1)
      case Text(text) => Got(Str(text), start + count, 1)
  }

  function BlobAt(data: seq<byte>, count: nat, start: nat): (r: Read)
    requires start <= |data|
  {
    if start + count > |data| then Failed(Truncated, 1)
    else Got(Dict([Entry(Str(Ascii("binary_hex")), Str(Hex(data[start..start + count])))]), start + count, 1)
  }

  /** `read()` at an offset. Every call takes its own marker byte, so whatever counts the headers
      declare there are at most as many calls as bytes, and one more when the data runs out. */
  function ReadValue(data: seq<byte>, off: nat): (r: Read)
    requires off <= |data|
    ensures r.Got? ==> off < r.next <= |data| && 1 <= r.calls <= r.next - off
    ensures r.Failed? ==> 1 <= r.calls <= |data| - off + 1
    decreases |data| - off, 1
  {
    Dispatch(data, off)
  }

  /** What `read()` does with its marker. */
  function Dispatch(data: seq<byte>, off: nat): (r: Read)
    requires off <= |data|
    ensures r.Got? ==> off < r.next <= |data| && 1 <= r.calls <= r.next - off
    ensures r.Failed? ==> 1 <= r.calls <= |data| - off + 1
    decreases |data| - off, 0
  {
    match Header(data, off)
    case NoShape(fault) => Failed(fault, 1)
    case Leaf(value, start) => Got(value, start, 1)
    case Text(count, start) => TextAt(data, count, start)
    case Blob(count, start) => BlobAt(data, count, start)
    case Items(count, start) =>
      (match ReadItems(data, start, count, [])
       case All(items, next, calls) => Got(List(items), next, calls + 1)
       case Stopped(fault, calls) => Failed(fault, calls + 1))
    case Pairs(count, start) =>
      (match ReadPairs(data, start, count, [])
       case All(entries, next, calls) => Got(Dict(entries), next, calls + 1)
       case Stopped(fault, calls) => Failed(fault, calls + 1))
  }

  /** `[read() for _ in range(count)]`, appending to `acc`. */
  function ReadItems(data: seq<byte>, off: nat, count: nat, acc: seq<Value>): (r: Many<Value>)
    requires off <= |data|
    ensures r.All? ==> off <= r.next <= |data| && r.calls <= r.next - off
    ensures r.Stopped? ==> r.calls <= |data| - off + 1
    decreases |data| - off, count + 3
  {
    if count == 0 then All(acc, off, 0)
    else
      match ReadValue(data, off)
      case Failed(fault, calls) => Stopped(fault, calls)
      case Got(value, next, calls) => AfterReads(calls, ReadItems(data, next, count - 1, acc + [value]))
  }

  function AfterReads<T>(calls: nat, r: Many<T>): (s: Many<T>)
  {
    match r
    case All(all, next, more) => All(all, next, calls + more)
    case Stopped(fault, more) => Stopped(fault, calls + more)
  }

  /** `{read(): read() for _ in range(count)}`, adding to `acc`: key, then value, then the hash. */
  function ReadPairs(data: seq<byte>, off: nat, count: nat, acc: seq<Entry>): (r: Many<Entry>)
    requires off <= |data|
    ensures r.All? ==> off <= r.next <= |data| && r.calls <= r.next - off
    ensures r.Stopped? ==> r.calls <= |data| - off + 1
    decreases |data| - off, count + 3
  {
    if count == 0 then All(acc, off, 0)
    else
      match ReadPair(data, off)
      case Stopped(fault, calls) => Stopped(fault, calls)
      case All(pair, next, calls) =>
        AfterReads(calls, ReadPairs(data, next, count - 1, Put(acc, pair[0].key, pair[0].val)))
  }

  function ReadPair(data: seq<byte>, off: nat): (r: Many<Entry>)
    requires off <= |data|
    ensures r.All? ==> |r.all| == 1 && off < r.next <= |data| && r.calls <= r.next - off
    ensures r.Stopped? ==> r.calls <= |data| - off + 1
    decreases |data| - off, 2
  {
    match ReadValue(data, off)
    case Failed(fault, calls) => Stopped(fault, calls)
    case Got(key, mid, calls) =>
      match ReadValue(data, mid)
      case Failed(fault, more) => Stopped(fault, calls + more)
      case Got(val, next, more) =>
        if Hashable(key) then All([Entry(key, val)], next, calls + more)
        else Stopped(UnhashableKey, calls + more)
  }

  datatype Unpacked = Accepted(value: Value) | Rejected(fault: Fault)

  /** `unpack(data)`. */
  function Unpack(data: seq<byte>): (r: Unpacked)
  {
    match ReadValue(data, 0)
    case Failed(fault, _) => Rejected(fault)
    case Got(value, next, _) => if next == |data| then Accepted(value) else Rejected(Trailing)
  }
}
