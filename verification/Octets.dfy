/**
 The byte cursors of `pemi/deps/octets`: network-order integers and the variable-length
 integers of section 16 of RFC 9000.
 */
module Octets {
  import opened Base

  datatype BufferTooShort = BufferTooShort

  // ---------------------------------------------------------------- network byte order

  function Pow256(n: nat): (p: nat)
    ensures p > 0
  {
    if n == 0 then 1 else 256 * Pow256(n - 1)
  }

  function BigEndian(b: Bytes): (v: nat) {
    if b == [] then 0 else 256 * BigEndian(b[..|b| - 1]) + b[|b| - 1]
  }

  /** The low `len` bytes of `v`, most significant first. */
  function ToBigEndian(v: nat, len: nat): (b: Bytes)
    ensures |b| == len
  {
    if len == 0 then [] else ToBigEndian(v / 256, len - 1) + [v % 256]
  }

  lemma {:induction false} BigEndianOfEncoding(v: nat, len: nat)
    requires v < Pow256(len)
    ensures BigEndian(ToBigEndian(v, len)) == v
  {
    if len > 0 {
      BigEndianOfEncoding(v / 256, len - 1);
      assert ToBigEndian(v, len)[..len - 1] == ToBigEndian(v / 256, len - 1);
    }
  }

  lemma {:induction false} EncodingOfBigEndian(b: Bytes)
    ensures ToBigEndian(BigEndian(b), |b|) == b
  {
    if b != [] {
      EncodingOfBigEndian(b[..|b| - 1]);
    }
  }

  lemma {:induction false} BigEndianBound(b: Bytes)
    ensures BigEndian(b) < Pow256(|b|)
  {
    if b != [] {
      BigEndianBound(b[..|b| - 1]);
    }
  }

  /** The first byte carries the highest weight. */
  lemma {:induction false} BigEndianHead(h: Byte, t: Bytes)
    ensures BigEndian([h] + t) == h * Pow256(|t|) + BigEndian(t)
  {
    if t == [] {
      assert ([h] + t)[..0] == [];
    } else {
      var front := t[..|t| - 1];
      BigEndianHead(h, front);
      assert ([h] + t)[..|t|] == [h] + front;
      assert h * (256 * Pow256(|front|)) == 256 * (h * Pow256(|front|));
    }
  }

  // ---------------------------------------------------------------- variable-length integers

  /** 2^62: one more than the largest encodable value. */
  const VARINT_LIMIT: nat := 0x4000_0000_0000_0000

  predicate IsVarintLen(n: nat) {
    n == 1 || n == 2 || n == 4 || n == 8
  }

  /** How many values an encoding of `n` bytes distinguishes: all bits but the top two. */
  function Capacity(n: nat): (c: nat)
    requires n > 0
  {
    64 * Pow256(n - 1)
  }

  /** The two bits that announce the length. */
  function Tag(len: nat): (t: nat)
    requires IsVarintLen(len)
    ensures t < 4 && VarintParseLen(64 * t) == len
  {
    if len == 1 then 0 else if len == 2 then 1 else if len == 4 then 2 else 3
  }

  lemma Capacities()
    ensures Capacity(1) == 64 && Capacity(2) == 16384
    ensures Capacity(4) == 1_073_741_824 && Capacity(8) == VARINT_LIMIT
  {
    assert Pow256(0) == 1 && Pow256(1) == 256 && Pow256(2) == 0x1_0000 && Pow256(3) == 0x100_0000;
    assert Pow256(5) == 0x100_0000_0000;
    assert Pow256(7) == 0x100_0000_0000_0000;
  }

  /** `varint_len`; larger values are unreachable in the original. */
  function VarintLen(v: nat): (n: nat)
    requires v < VARINT_LIMIT
    ensures IsVarintLen(n)
  {
    if v <= 63 then 1 else if v <= 16383 then 2 else if v <= 1_073_741_823 then 4 else 8
  }

  /** It is the shortest length that can hold the value. */
  lemma VarintLenIsShortest(v: nat, n: nat)
    requires v < VARINT_LIMIT && IsVarintLen(n)
    ensures v < Capacity(n) <==> VarintLen(v) <= n
  {
    Capacities();
  }

  function VarintParseLen(first: Byte): (n: nat)
    ensures IsVarintLen(n)
  {
    var top := first / 64;
    if top == 0 then 1 else if top == 1 then 2 else if top == 2 then 4 else 8
  }

  /** `b | (tag << 6)`. */
  function OrTag(b: Byte, tag: nat): (r: Byte)
    requires tag < 4
    ensures b < 64 ==> r == 64 * tag + b
  {
    var top := b / 64;
    var topped :=
      if tag == 0 then top
      else if tag == 1 then (if top % 2 == 1 then top else top + 1)
      else if tag == 2 then (if top >= 2 then top else top + 2)
      else 3;
    64 * topped + b % 64
  }

  /** What `put_varint_with_len` writes: the low bytes of the value, with the tag set in the first. */
  function EncodeVarint(v: nat, len: nat): (b: Bytes)
    requires IsVarintLen(len)
    ensures |b| == len
  {
    var raw := ToBigEndian(v, len);
    [OrTag(raw[0], Tag(len))] + raw[1..]
  }

  /** The value without the two tag bits; a one-byte encoding has none set. */
  function Mask(raw: nat, len: nat): nat
    requires IsVarintLen(len)
  {
    if len == 1 then raw
    else if len == 2 then raw % 0x4000
    else if len == 4 then raw % 0x4000_0000
    else raw % 0x4000_0000_0000_0000
  }

  /** What `get_varint` reads off the front of `s`, and what it leaves. */
  function TakeVarint(s: Bytes): (r: Result<(nat, Bytes), BufferTooShort>)
    ensures r.Ok? ==> |r.value.1| < |s| && r.value.1 == s[|s| - |r.value.1|..]
  {
    if s == [] then Err(BufferTooShort)
    else
      var len := VarintParseLen(s[0]);
      if len > |s| then Err(BufferTooShort)
      else Ok((Mask(BigEndian(s[..len]), len), s[len..]))
  }

  /** The first byte of a value that fits leaves room for the tag. */
  lemma FirstByteIsSmall(v: nat, len: nat)
    requires IsVarintLen(len) && v < Capacity(len)
    ensures v < Pow256(len) && ToBigEndian(v, len)[0] < 64
    ensures v == ToBigEndian(v, len)[0] * Pow256(len - 1) + BigEndian(ToBigEndian(v, len)[1..])
  {
    var raw := ToBigEndian(v, len);
    BigEndianOfEncoding(v, len);
    assert raw == [raw[0]] + raw[1..];
    BigEndianHead(raw[0], raw[1..]);
    if raw[0] >= 64 {
      MulMonotone(64, raw[0], Pow256(len - 1));
    }
  }

  lemma MulMonotone(a: nat, b: nat, c: nat)
    requires a <= b
    ensures a * c <= b * c
  {
  }

  lemma Distribute(tag: nat, low: nat, weight: nat)
    ensures (64 * tag + low) * weight == tag * (64 * weight) + low * weight
  {
    assert (64 * tag + low) * weight == (64 * tag) * weight + low * weight;
    assert (64 * tag) * weight == tag * (64 * weight);
  }

  /** The weight of a tag in an encoding of `len` bytes. */
  function Weighted(tag: nat, len: nat): nat
    requires len > 0
  {
    tag * Capacity(len)
  }

  /** A first byte with tag and low bits weighs the tag by the capacity of the encoding. */
  lemma TaggedValue(tag: nat, low: nat, t: Bytes)
    requires tag < 4 && low < 64
    ensures BigEndian([64 * tag + low] + t) == Weighted(tag, |t| + 1) + BigEndian([low] + t)
    ensures BigEndian([low] + t) < Capacity(|t| + 1)
  {
    hide BigEndian, Pow256;
    BigEndianHead(64 * tag + low, t);
    BigEndianHead(low, t);
    BigEndianBound(t);
    WeighTag(tag, low, Pow256(|t|), BigEndian(t));
    assert Capacity(|t| + 1) == 64 * Pow256(|t|);
    hide Capacity;
  }

  lemma WeighTag(tag: nat, low: nat, weight: nat, rest: nat)
    requires low < 64 && rest < weight
    ensures (64 * tag + low) * weight + rest == tag * (64 * weight) + (low * weight + rest)
    ensures low * weight + rest < 64 * weight
  {
    Distribute(tag, low, weight);
    MulMonotone(low, 63, weight);
  }

  lemma MaskStripsTag(v: nat, tag: nat, len: nat)
    requires IsVarintLen(len) && v < Capacity(len) && tag == Tag(len)
    ensures Mask(Weighted(tag, len) + v, len) == v
  {
    Capacities();
    hide Capacity;
  }

  /** Writing a value and reading it back: same value, same length, nothing else consumed. */
  lemma VarintRoundTrip(v: nat, len: nat, rest: Bytes)
    requires IsVarintLen(len) && v < Capacity(len)
    ensures VarintParseLen(EncodeVarint(v, len)[0]) == len
    ensures TakeVarint(EncodeVarint(v, len) + rest) == Ok((v, rest))
  {
    var raw := ToBigEndian(v, len);
    FirstByteIsSmall(v, len);
    BigEndianOfEncoding(v, len);
    hide Capacity, Pow256, BigEndian, ToBigEndian, Mask, EncodeVarint;
    var code := EncodeVarint(v, len);
    assert raw == [raw[0]] + raw[1..];
    Retagged(v, Tag(len), raw[0], raw[1..]);
    MaskedValue(Tag(len), raw[0], raw[1..]);
    ParseLenIgnoresLowBits(Tag(len), raw[0]);
    assert (code + rest)[..len] == code && (code + rest)[len..] == rest;
  }

  lemma ParseLenIgnoresLowBits(tag: nat, low: nat)
    requires tag < 4 && low < 64
    ensures VarintParseLen(64 * tag + low) == VarintParseLen(64 * tag)
  {
  }

  lemma FirstByteSplits(b: Byte)
    ensures b == 64 * Tag(VarintParseLen(b)) + b % 64
  {
  }

  /** Reading a varint and writing it back in the length read restores the bytes. */
  lemma VarintBytesRoundTrip(s: Bytes)
    requires TakeVarint(s).Ok?
    ensures var (v, rest) := TakeVarint(s).value; var len := |s| - |rest|;
            IsVarintLen(len) && v < Capacity(len) && EncodeVarint(v, len) == s[..len]
  {
    hide Capacity, EncodeVarint, Mask, BigEndian;
    var len := VarintParseLen(s[0]);
    assert s[..len][0] == s[0];
    BytesAreEncoding(s[..len]);
  }

  /** Bytes whose first announces their number are the encoding of the value they are read as. */
  lemma BytesAreEncoding(b: Bytes)
    requires b != [] && |b| == VarintParseLen(b[0])
    ensures var v := Mask(BigEndian(b), |b|); v < Capacity(|b|) && EncodeVarint(v, |b|) == b
  {
    var len, low, t := |b|, b[0] % 64, b[1..];
    FirstByteSplits(b[0]);
    hide Capacity, BigEndian, Mask, EncodeVarint, VarintParseLen, Tag;
    assert b == [64 * Tag(len) + low] + t;
    TaggedIsEncoding(Tag(len), low, t);
  }

  lemma TaggedIsEncoding(tag: nat, low: nat, t: Bytes)
    requires low < 64 && IsVarintLen(|t| + 1) && tag == Tag(|t| + 1)
    ensures var b := [64 * tag + low] + t; var v := Mask(BigEndian(b), |t| + 1);
            v < Capacity(|t| + 1) && EncodeVarint(v, |t| + 1) == b
  {
    hide Capacity, Pow256, BigEndian, ToBigEndian, Mask, EncodeVarint;
    MaskedValue(tag, low, t);
    EncodingOfBigEndian([low] + t);
    Retagged(BigEndian([low] + t), tag, low, t);
  }

  /** Read without its tag, a tagged encoding has the value of the bytes before tagging. */
  lemma MaskedValue(tag: nat, low: nat, t: Bytes)
    requires low < 64 && IsVarintLen(|t| + 1) && tag == Tag(|t| + 1)
    ensures Mask(BigEndian([64 * tag + low] + t), |t| + 1) == BigEndian([low] + t)
    ensures BigEndian([low] + t) < Capacity(|t| + 1)
  {
    hide Capacity, BigEndian, Mask, Weighted;
    TaggedValue(tag, low, t);
    MaskStripsTag(BigEndian([low] + t), tag, |t| + 1);
  }

  lemma Retagged(v: nat, tag: nat, low: nat, t: Bytes)
    requires low < 64 && IsVarintLen(|t| + 1) && tag == Tag(|t| + 1) && ToBigEndian(v, |t| + 1) == [low] + t
    ensures EncodeVarint(v, |t| + 1) == [64 * tag + low] + t
  {
    hide ToBigEndian, OrTag, VarintParseLen;
    var raw := ToBigEndian(v, |t| + 1);
    assert raw[0] == low && raw[1..] == t;
    assert OrTag(low, tag) == 64 * tag + low;
  }

  // ---------------------------------------------------------------- the reading cursor

  /** `Octets`: a buffer and an offset that reads move forward. */
  class Cursor {
    const buf: Bytes
    var off: nat

    ghost predicate Valid()
      reads this
    {
      off <= |buf|
    }

    /** What is left to read. */
    function Rest(): Bytes
      reads this
      requires Valid()
    {
      buf[off..]
    }

    constructor (bytes: Bytes)
      ensures Valid() && buf == bytes && off == 0
    {
      buf, off := bytes, 0;
    }

    function Cap(): (n: nat)
      reads this
      requires Valid()
    {
      |buf| - off
    }

    method PeekU8() returns (r: Result<Byte, BufferTooShort>)
      requires Valid()
      ensures r == if Rest() == [] then Err(BufferTooShort) else Ok(Rest()[0])
    {
      r := if Cap() < 1 then Err(BufferTooShort) else Ok(buf[off]);
    }

    /** `get_u8`, `get_u16`, `get_u32`, `get_u64`: `len` bytes in network order. */
    method GetUint(len: nat) returns (r: Result<nat, BufferTooShort>)
      requires Valid()
      modifies `off
      ensures Valid() && (r.Ok? <==> len <= |old(Rest())|)
      ensures r.Ok? ==> r.value == BigEndian(old(Rest())[..len]) && Rest() == old(Rest())[len..]
      ensures r.Err? ==> off == old(off)
    {
      if Cap() < len {
        r := Err(BufferTooShort);
      } else {
        r := Ok(BigEndian(buf[off..off + len]));
        assert buf[off..off + len] == Rest()[..len];
        off := off + len;
      }
    }

    method GetVarint() returns (r: Result<nat, BufferTooShort>)
      requires Valid()
      modifies `off
      ensures Valid()
      ensures r.Ok? <==> TakeVarint(old(Rest())).Ok?
      ensures r.Ok? ==> TakeVarint(old(Rest())) == Ok((r.value, Rest()))
    {
      var first := PeekU8();
      if first.Err? {
        return Err(BufferTooShort);
      }
      var len := VarintParseLen(first.value);
      if len > Cap() {
        return Err(BufferTooShort);
      }
      var raw := GetUint(len);
      r := Ok(Mask(raw.value, len));
    }

    method GetBytes(len: nat) returns (r: Result<Bytes, BufferTooShort>)
      requires Valid()
      modifies `off
      ensures Valid() && (r.Ok? <==> len <= |old(Rest())|)
      ensures r.Ok? ==> r.value == old(Rest())[..len] && Rest() == old(Rest())[len..]
      ensures r.Err? ==> off == old(off)
    {
      if Cap() < len {
        r := Err(BufferTooShort);
      } else {
        r := Ok(buf[off..off + len]);
        off := off + len;
      }
    }

    method Skip(len: nat) returns (r: Result<(), BufferTooShort>)
      requires Valid()
      modifies `off
      ensures Valid() && (r.Ok? <==> len <= |old(Rest())|)
      ensures r.Ok? ==> Rest() == old(Rest())[len..]
      ensures r.Err? ==> off == old(off)
    {
      if len > Cap() {
        r := Err(BufferTooShort);
      } else {
        off := off + len;
        r := Ok(());
      }
    }
  }

  // ---------------------------------------------------------------- the writing cursor

  /** `OctetsMut`: a buffer written in place. */
  class MutCursor {
    const buf: array<Byte>
    var off: nat

    ghost predicate Valid()
      reads this
    {
      off <= buf.Length
    }

    constructor (buffer: array<Byte>)
      ensures Valid() && buf == buffer && off == 0
    {
      buf, off := buffer, 0;
    }

    /** `put_u8` to `put_u64`: the low `len` bytes of `v` in network order. */
    method PutUint(v: nat, len: nat) returns (r: Result<(), BufferTooShort>)
      requires Valid()
      modifies `off, buf
      ensures Valid() && (r.Ok? <==> len <= buf.Length - old(off))
      ensures r.Err? ==> off == old(off) && buf[..] == old(buf[..])
      ensures r.Ok? ==> off == old(off) + len
      ensures r.Ok? ==> buf[..] == old(buf[..off]) + ToBigEndian(v, len) + old(buf[off + len..])
    {
      if buf.Length < off + len {
        return Err(BufferTooShort);
      }
      var bytes := ToBigEndian(v, len);
      for k := 0 to len
        invariant off == old(off)
        invariant forall i :: 0 <= i < buf.Length ==>
                    buf[i] == if off <= i < off + k then bytes[i - off] else old(buf[i])
      {
        buf[off + k] := bytes[k];
      }
      off := off + len;
      r := Ok(());
    }

    /** `put_varint_with_len`; a length other than 1, 2, 4 or 8 panics in the original. */
    method PutVarintWithLen(v: nat, len: nat) returns (r: Result<(), BufferTooShort>)
      requires Valid() && IsVarintLen(len)
      modifies `off, buf
      ensures Valid() && (r.Ok? <==> len <= buf.Length - old(off))
      ensures r.Err? ==> off == old(off) && buf[..] == old(buf[..])
      ensures r.Ok? ==> off == old(off) + len
      ensures r.Ok? ==> buf[..] == old(buf[..off]) + EncodeVarint(v, len) + old(buf[off + len..])
    {
      var start := off;
      r := PutUint(v, len);
      if r.Ok? {
        buf[start] := OrTag(buf[start], Tag(len));
      }
    }

    /** A value that fits is read back from where it was written. */
    lemma WrittenIsRead(was: nat, v: nat, len: nat)
      requires Valid() && IsVarintLen(len) && v < Capacity(len) && off == was + len
      requires buf[was..off] == EncodeVarint(v, len)
      ensures TakeVarint(buf[was..]) == Ok((v, buf[off..]))
    {
      VarintRoundTrip(v, len, buf[off..]);
      assert buf[was..] == EncodeVarint(v, len) + buf[off..];
    }

    /** `put_varint`. */
    method PutVarint(v: nat) returns (r: Result<(), BufferTooShort>)
      requires Valid() && v < VARINT_LIMIT
      modifies `off, buf
      ensures Valid() && (r.Ok? <==> VarintLen(v) <= buf.Length - old(off))
      ensures r.Err? ==> off == old(off) && buf[..] == old(buf[..])
      ensures r.Ok? ==> off == old(off) + VarintLen(v)
      ensures r.Ok? ==> buf[..] == old(buf[..off]) + EncodeVarint(v, VarintLen(v)) + old(buf[off + VarintLen(v)..])
      ensures r.Ok? ==> TakeVarint(buf[old(off)..]) == Ok((v, buf[off..]))
    {
      r := PutVarintWithLen(v, VarintLen(v));
      if r.Ok? {
        VarintLenIsShortest(v, VarintLen(v));
        assert buf[old(off)..off] == EncodeVarint(v, VarintLen(v));
        WrittenIsRead(old(off), v, VarintLen(v));
      }
    }
  }
}
