/** Bytes and the fixed-width big-endian integers of `int.to_bytes` and `int.from_bytes`. */
module BigEndian {
  type byte = x: int | 0 <= x < 256

  /** 256 to the power `width`: the number of values a field of that many bytes can hold. */
  function Span(width: nat): (n: nat)
    ensures n >= 1
  {
    if width == 0 then 1 else 256 * Span(width - 1)
  }

  /** The low `width` bytes of `value`; all of it when `value < Span(width)`. */
  function ToBytes(value: nat, width: nat): (s: seq<byte>)
    ensures |s| == width
  {
    if width == 0 then [] else ToBytes(value / 256, width - 1) + [value % 256]
  }

  function FromBytes(s: seq<byte>): (value: nat)
  {
    if s == [] then 0 else 256 * FromBytes(s[..|s| - 1]) + s[|s| - 1]
  }

  /** Writing a number and reading it back gives the number. */
  lemma {:induction false} WriteThenRead(value: nat, width: nat)
    requires value < Span(width)
    ensures FromBytes(ToBytes(value, width)) == value
  {
    if width > 0 {
      var high := ToBytes(value / 256, width - 1);
      WriteThenRead(value / 256, width - 1);
      assert (high + [value % 256])[..width - 1] == high;
    }
  }

  /** Reading bytes and writing the number back gives the bytes. */
  lemma {:induction false} ReadThenWrite(s: seq<byte>)
    ensures ToBytes(FromBytes(s), |s|) == s
  {
    if s != [] {
      ReadThenWrite(s[..|s| - 1]);
      assert s == s[..|s| - 1] + [s[|s| - 1]];
    }
  }

  /** Two's complement reading: `int.from_bytes(s, "big", signed=True)`. */
  function FromSigned(s: seq<byte>): (value: int)
  {
    var u := FromBytes(s);
    if 2 * u >= Span(|s|) && s != [] then u - Span(|s|) else u
  }

  lemma SpanValues()
    ensures Span(1) == 0x100
    ensures Span(2) == 0x1_0000
    ensures Span(4) == 0x1_0000_0000
    ensures Span(8) == 0x1_0000_0000_0000_0000
  {
    assert Span(1) == 256 * Span(0);
    assert Span(2) == 256 * Span(1);
    assert Span(3) == 256 * Span(2);
    assert Span(4) == 256 * Span(3);
    assert Span(5) == 256 * Span(4);
    assert Span(6) == 256 * Span(5);
    assert Span(7) == 256 * Span(6);
    assert Span(8) == 256 * Span(7);
  }
}
