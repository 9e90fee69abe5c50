/** QUIC packet headers (`pemi/src/quic_parse.rs`). */
module QuicHeader {
  import opened Base
  import opened Octets

  datatype PacketType = Initial | ZeroRtt | Handshake | Retry | VersionNegotiation | Short

  datatype Header = Header(ty: PacketType, spin: bool, version: nat, dcid: Bytes, scid: Bytes, length: nat)

  /** Why a packet is not accepted; `Panicked` stands for an explicit panic of the original. */
  datatype ParseError = TooShort | MayNotQuic | InvalidState | Panicked

  const MAX_CID_LEN: nat := 20

  const VERSION_1: nat := 1

  /** `b & 0x80 != 0`. */
  predicate IsLong(first: Byte) { first >= 128 }

  /** `b & 0x20 != 0`. */
  predicate SpinState(first: Byte) { first / 32 % 2 == 1 }

  /** The type bits of a long header, `(first & 0x30) >> 4`. */
  function LongType(first: Byte): PacketType {
    var bits := first / 16 % 4;
    if bits == 0 then Initial else if bits == 1 then ZeroRtt else if bits == 2 then Handshake else Retry
  }

  // ---------------------------------------------------------------- reading

  /** `len` bytes off the front of `s`. */
  function TakeBytes(s: Bytes, len: nat): (r: Result<(Bytes, Bytes), ParseError>)
    ensures r.Ok? ==> |r.value.1| <= |s| && s == r.value.0 + r.value.1 && |r.value.0| == len
  {
    if len > |s| then Err(TooShort) else Ok((s[..len], s[len..]))
  }

  function TakeVar(s: Bytes): (r: Result<(nat, Bytes), ParseError>)
    ensures r.Ok? ==> |r.value.1| < |s|
  {
    if TakeVarint(s).Ok? then Ok(TakeVarint(s).value) else Err(TooShort)
  }

  /** A connection ID with its length byte; version 1 panics on more than 20 bytes. */
  function TakeConnectionId(s: Bytes, version: nat): (r: Result<(Bytes, Bytes), ParseError>)
    ensures r.Ok? ==> |r.value.1| < |s|
  {
    var (n, s) :- TakeBytes(s, 1);
    if version == VERSION_1 && n[0] > MAX_CID_LEN then Err(Panicked) else TakeBytes(s, n[0])
  }

  /** The length of what follows the header; an Initial packet has its token before it. */
  function TakeLength(s: Bytes, ty: PacketType): (r: Result<(nat, Bytes), ParseError>)
    ensures r.Ok? ==> |r.value.1| <= |s|
  {
    match ty
    case Initial =>
      var (tokenLen, s) :- TakeVar(s);
      var (_, s) :- TakeBytes(s, tokenLen);
      TakeVar(s)
    case ZeroRtt => TakeVar(s)
    case Handshake => TakeVar(s)
    case _ => Ok((|s|, s))
  }

  /** `Header::from_bytes` on the remaining bytes `s`: the header and what it leaves. */
  function ParseHeader(s: Bytes, dcidLen: nat): (r: Result<(Header, Bytes), ParseError>)
    ensures r.Ok? ==> |r.value.1| < |s|
  {
    var (first, s) :- TakeBytes(s, 1);
    if !IsLong(first[0]) then
      if dcidLen == 0 then Err(InvalidState)
      else
        var (dcid, s) :- TakeBytes(s, dcidLen);
        Ok((Header(Short, SpinState(first[0]), 0, dcid, [], |s|), s))
    else
      var (v, s) :- TakeBytes(s, 4);
      var version := BigEndian(v);
      var ty := if version == 0 then VersionNegotiation else LongType(first[0]);
      var (dcid, s) :- TakeConnectionId(s, version);
      var (scid, s) :- TakeConnectionId(s, version);
      var (length, s) :- TakeLength(s, ty);
      Ok((Header(ty, false, version, dcid, scid, length), s))
  }

  // ---------------------------------------------------------------- the layout of RFC 9000

  function TypeBits(ty: PacketType): (n: nat)
    requires ty in {Initial, ZeroRtt, Handshake, Retry}
    ensures n < 4
  {
    match ty case Initial => 0 case ZeroRtt => 1 case Handshake => 2 case Retry => 3
  }

  /** A varint together with the length it is written in. */
  datatype Var = Var(value: nat, len: nat)
  {
    predicate Fits() { IsVarintLen(len) && value < Capacity(len) }
    function Encode(): (b: Bytes) requires Fits() { EncodeVarint(value, len) }
  }

  /** A connection ID field: one length byte, then the ID. */
  function CidField(cid: Bytes): (b: Bytes)
    requires |cid| < 256
  {
    [|cid|] + cid
  }

  /** The fields of sections 17.2.2 to 17.2.5 of RFC 9000 after the connection IDs. */
  function LengthField(ty: PacketType, token: Bytes, tokenLen: Var, length: Var): (b: Bytes)
    requires tokenLen.Fits() && length.Fits()
  {
    match ty
    case Initial => tokenLen.Encode() + token + length.Encode()
    case ZeroRtt => length.Encode()
    case Handshake => length.Encode()
    case _ => []
  }

  /** A long header as in section 17.2 of RFC 9000; `low` are its four type-specific bits. */
  function LongHeader(ty: PacketType, low: nat, version: nat, dcid: Bytes, scid: Bytes,
                      token: Bytes, tokenLen: Var, length: Var): (b: Bytes)
    requires ty in {Initial, ZeroRtt, Handshake, Retry} && low < 16
    requires |dcid| < 256 && |scid| < 256 && tokenLen.Fits() && length.Fits()
  {
    [0xc0 + 16 * TypeBits(ty) + low] + ToBigEndian(version, 4) + CidField(dcid) + CidField(scid) +
    LengthField(ty, token, tokenLen, length)
  }

  lemma TakeBytesOf(a: Bytes, rest: Bytes)
    ensures TakeBytes(a + rest, |a|) == Ok((a, rest))
  {
    assert (a + rest)[..|a|] == a && (a + rest)[|a|..] == rest;
  }

  lemma TakeConnectionIdOf(cid: Bytes, version: nat, rest: Bytes)
    requires |cid| <= if version == VERSION_1 then MAX_CID_LEN else 255
    ensures TakeConnectionId(CidField(cid) + rest, version) == Ok((cid, rest))
  {
    TakeBytesOf([|cid|], cid + rest);
    assert CidField(cid) + rest == [|cid|] + (cid + rest);
    TakeBytesOf(cid, rest);
  }

  lemma TakeVarOf(v: Var, rest: Bytes)
    requires v.Fits()
    ensures TakeVar(v.Encode() + rest) == Ok((v.value, rest))
  {
    hide TakeVarint, EncodeVarint, Capacity;
    VarintRoundTrip(v.value, v.len, rest);
  }

  lemma TakeLengthOf(ty: PacketType, token: Bytes, tokenLen: Var, length: Var, rest: Bytes)
    requires ty in {Initial, ZeroRtt, Handshake, Retry}
    requires tokenLen.Fits() && length.Fits() && tokenLen.value == |token|
    ensures TakeLength(LengthField(ty, token, tokenLen, length) + rest, ty) ==
            Ok((if ty == Retry then |rest| else length.value, rest))
  {
    hide TakeVar, TakeBytes, EncodeVarint, Capacity;
    TakeVarOf(length, rest);
    if ty == Initial {
      var tail := length.Encode() + rest;
      TakeVarOf(tokenLen, token + tail);
      TakeBytesOf(token, tail);
      assert LengthField(ty, token, tokenLen, length) + rest == tokenLen.Encode() + (token + tail);
    } else if ty == Retry {
      assert [] + rest == rest;
    }
  }

  lemma TypeOfFirstByte(ty: PacketType, low: nat)
    requires ty in {Initial, ZeroRtt, Handshake, Retry} && low < 16
    ensures var first := 0xc0 + 16 * TypeBits(ty) + low;
            first < 256 && IsLong(first) && LongType(first) == ty
  {
  }

  /** A long header laid out by the standard is recovered field by field. */
  lemma ParseRecoversLongHeader(ty: PacketType, low: nat, version: nat, dcid: Bytes, scid: Bytes,
                                token: Bytes, tokenLen: Var, length: Var, rest: Bytes, dcidLen: nat)
    requires ty in {Initial, ZeroRtt, Handshake, Retry} && low < 16
    requires 0 < version < 0x1_0000_0000
    requires |dcid| <= if version == VERSION_1 then MAX_CID_LEN else 255
    requires |scid| <= if version == VERSION_1 then MAX_CID_LEN else 255
    requires tokenLen.Fits() && length.Fits() && tokenLen.value == |token|
    ensures ParseHeader(LongHeader(ty, low, version, dcid, scid, token, tokenLen, length) + rest, dcidLen) ==
            Ok((Header(ty, false, version, dcid, scid, if ty == Retry then |rest| else length.value), rest))
  {
    hide ParseHeader, IsLong, LongType, TypeBits, TakeLength, BigEndian, ToBigEndian, LongHeader, LengthField, CidField;
    LongHeaderLayout(ty, low, version, dcid, scid, token, tokenLen, length, rest);
    TypeOfFirstByte(ty, low);
    FourBytes(version);
    TakeLengthOf(ty, token, tokenLen, length, rest);
    LongHeaderParts(0xc0 + 16 * TypeBits(ty) + low, ToBigEndian(version, 4), dcid, scid,
                    if ty == Retry then |rest| else length.value,
                    LengthField(ty, token, tokenLen, length) + rest, rest, dcidLen);
  }

  /** A long header whose last part is read like this is read as a whole. */
  lemma LongHeaderParts(first: Byte, v: Bytes, dcid: Bytes, scid: Bytes, length: nat, tail: Bytes, rest: Bytes,
                        dcidLen: nat)
    requires IsLong(first) && |v| == 4 && BigEndian(v) != 0
    requires |dcid| <= if BigEndian(v) == VERSION_1 then MAX_CID_LEN else 255
    requires |scid| <= if BigEndian(v) == VERSION_1 then MAX_CID_LEN else 255
    requires TakeLength(tail, LongType(first)) == Ok((length, rest))
    ensures ParseHeader([first] + (v + (CidField(dcid) + (CidField(scid) + tail))), dcidLen) ==
            Ok((Header(LongType(first), false, BigEndian(v), dcid, scid, length), rest))
  {
    hide TakeBytes, TakeConnectionId, TakeLength, BigEndian, IsLong, LongType, CidField;
    var afterDcid := CidField(scid) + tail;
    var afterVersion := CidField(dcid) + afterDcid;
    TakeBytesOf([first], v + afterVersion);
    TakeBytesOf(v, afterVersion);
    TakeConnectionIdOf(dcid, BigEndian(v), afterDcid);
    TakeConnectionIdOf(scid, BigEndian(v), tail);
  }

  lemma LongHeaderLayout(ty: PacketType, low: nat, version: nat, dcid: Bytes, scid: Bytes,
                         token: Bytes, tokenLen: Var, length: Var, rest: Bytes)
    requires ty in {Initial, ZeroRtt, Handshake, Retry} && low < 16
    requires 0 < version < 0x1_0000_0000 && |dcid| <= 255 && |scid| <= 255 && tokenLen.Fits() && length.Fits()
    ensures LongHeader(ty, low, version, dcid, scid, token, tokenLen, length) + rest ==
            [0xc0 + 16 * TypeBits(ty) + low] +
              (ToBigEndian(version, 4) + (CidField(dcid) + (CidField(scid) +
                (LengthField(ty, token, tokenLen, length) + rest))))
  {
    hide ToBigEndian, LengthField, CidField;
  }

  lemma FourBytes(v: nat)
    requires v < 0x1_0000_0000
    ensures BigEndian(ToBigEndian(v, 4)) == v
  {
    assert Pow256(1) == 256 && Pow256(2) == 0x1_0000 && Pow256(4) == 0x1_0000_0000;
    BigEndianOfEncoding(v, 4);
  }

  // ---------------------------------------------------------------- the cursor version

  /** The errors of the cursor, as the parser reports them. */
  function Lift<T>(r: Result<T, BufferTooShort>): Result<T, ParseError> {
    if r.Ok? then Ok(r.value) else Err(TooShort)
  }

  method ReadConnectionId(b: Cursor, version: nat) returns (r: Result<Bytes, ParseError>)
    requires b.Valid()
    modifies b`off
    ensures b.Valid()
    ensures r.Ok? ==> TakeConnectionId(old(b.Rest()), version) == Ok((r.value, b.Rest()))
    ensures r.Err? ==> TakeConnectionId(old(b.Rest()), version) == Err(r.error)
  {
    var n := b.GetUint(1);
    if n.Err? {
      return Err(TooShort);
    }
    assert BigEndian(old(b.Rest())[..1]) == old(b.Rest())[0];
    if version == VERSION_1 && n.value > MAX_CID_LEN {
      return Err(Panicked);
    }
    var cid := b.GetBytes(n.value);
    r := Lift(cid);
  }

  method ReadLength(b: Cursor, ty: PacketType) returns (r: Result<nat, ParseError>)
    requires b.Valid()
    modifies b`off
    ensures b.Valid()
    ensures r.Ok? ==> TakeLength(old(b.Rest()), ty) == Ok((r.value, b.Rest()))
    ensures r.Err? ==> TakeLength(old(b.Rest()), ty) == Err(r.error)
  {
    hide TakeVarint;
    match ty {
      case Initial =>
        var n := b.GetVarint();
        if n.Err? {
          return Err(TooShort);
        }
        var token := b.GetBytes(n.value);
        if token.Err? {
          return Err(TooShort);
        }
        var v := b.GetVarint();
        r := Lift(v);
      case ZeroRtt =>
        var v := b.GetVarint();
        r := Lift(v);
      case Handshake =>
        var v := b.GetVarint();
        r := Lift(v);
      case _ =>
        r := Ok(b.Cap());
    }
  }

  /** `Header::from_bytes`. */
  method FromBytes(b: Cursor, dcidLen: nat) returns (r: Result<Header, ParseError>)
    requires b.Valid()
    modifies b`off
    ensures b.Valid()
    ensures r.Ok? ==> ParseHeader(old(b.Rest()), dcidLen) == Ok((r.value, b.Rest()))
    ensures r.Err? ==> ParseHeader(old(b.Rest()), dcidLen) == Err(r.error)
  {
    hide TakeLength, TakeConnectionId, LongType, SpinState;
    var first := b.GetUint(1);
    if first.Err? {
      return Err(TooShort);
    }
    assert BigEndian(old(b.Rest())[..1]) == old(b.Rest())[0];
    if !IsLong(first.value) {
      if dcidLen == 0 {
        return Err(InvalidState);
      }
      var dcid := b.GetBytes(dcidLen);
      if dcid.Err? {
        return Err(TooShort);
      }
      return Ok(Header(Short, SpinState(first.value), 0, dcid.value, [], b.Cap()));
    }
    r := ReadLongHeader(b, first.value);
  }

  /** The part of a long header after its first byte. */
  method ReadLongHeader(b: Cursor, first: Byte) returns (r: Result<Header, ParseError>)
    requires b.Valid() && IsLong(first)
    modifies b`off
    ensures b.Valid()
    ensures r.Ok? ==> ParseHeader([first] + old(b.Rest()), 0) == Ok((r.value, b.Rest()))
    ensures r.Err? ==> ParseHeader([first] + old(b.Rest()), 0) == Err(r.error)
  {
    hide TakeConnectionId, TakeLength, BigEndian;
    TakeBytesOf([first], b.Rest());
    var version := b.GetUint(4);
    if version.Err? {
      return Err(TooShort);
    }
    var ty := if version.value == 0 then VersionNegotiation else LongType(first);
    var dcid := ReadConnectionId(b, version.value);
    if dcid.Err? {
      return Err(dcid.error);
    }
    var scid := ReadConnectionId(b, version.value);
    if scid.Err? {
      return Err(scid.error);
    }
    var length := ReadLength(b, ty);
    if length.Err? {
      return Err(length.error);
    }
    r := Ok(Header(ty, false, version.value, dcid.value, scid.value, length.value));
  }
}
