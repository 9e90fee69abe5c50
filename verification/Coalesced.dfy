/**
 Several QUIC packets in one datagram (section 12.2 of RFC 9000): which bytes each takes, as
 `Conn::first_quic_packet`, `Conn::process_quic_packet` and `PEMI::quic_conn_process` see them.
 */
module Coalesced {
  import opened Base
  import opened Octets
  import opened QuicHeader

  /** How much of `s` a packet takes whose header leaves `rest`; zero bytes after it are padding. */
  function Extent(s: Bytes, length: nat, rest: Bytes): (r: Result<nat, ParseError>)
    requires |rest| < |s|
    ensures r.Ok? ==> 1 <= r.value <= |s|
  {
    if length > |rest| then Err(TooShort)
    else
      var after := rest[length..];
      Ok(if after != [] && after[0] == 0 then |s| else |s| - |after|)
  }

  /** The first packet of a connection must be an Initial. */
  function FirstPacket(s: Bytes): (r: Result<nat, ParseError>)
    ensures r.Ok? ==> 1 <= r.value <= |s|
  {
    var (h, rest) :- ParseHeader(s, 0);
    if h.ty != Initial then Err(MayNotQuic) else Extent(s, h.length, rest)
  }

  /**
   A packet of a known connection: how much it takes, and whether the handshake is seen. A
   Handshake packet from the client panics. After the handshake nothing is parsed.
   */
  function FollowingPacket(s: Bytes, handshaked: bool, fromClient: bool): (r: Result<(nat, bool), ParseError>)
    requires s != []
    ensures r.Ok? ==> 1 <= r.value.0 <= |s| && (handshaked ==> r.value.1)
  {
    if handshaked then Ok((|s|, true))
    else
      var (h, rest) :- ParseHeader(s, 0);
      if h.ty == Handshake && fromClient then Err(Panicked)
      else
        var n :- Extent(s, h.length, rest);
        Ok((n, h.ty == Handshake))
  }

  /** How far a datagram was consumed: the pieces cut off, and what stopped it, if anything. */
  datatype Progress = Progress(known: bool, handshaked: bool, cuts: seq<nat>, error: Option<ParseError>)

  /** The coalesced-packet loop over the bytes `s`. */
  function Consume(s: Bytes, known: bool, handshaked: bool, fromClient: bool): (p: Progress)
    decreases |s|
  {
    if s == [] then Progress(known, handshaked, [], None)
    else if !known then
      match FirstPacket(s)
      case Err(e) => Progress(false, handshaked, [], Some(e))
      case Ok(n) => Cut(n, Consume(s[n..], true, false, fromClient))
    else
      match FollowingPacket(s, handshaked, fromClient)
      case Err(e) => Progress(true, handshaked, [], Some(e))
      case Ok((n, seen)) => Cut(n, Consume(s[n..], true, seen, fromClient))
  }

  function Cut(n: nat, p: Progress): Progress {
    p.(cuts := [n] + p.cuts)
  }

  function Sum(cuts: seq<nat>): nat {
    if cuts == [] then 0 else cuts[0] + Sum(cuts[1..])
  }

  /**
   Every piece is non-empty and within the datagram; when nothing stops the loop the pieces
   tile it exactly and the connection is known at the end.
   */
  lemma {:induction false} PiecesTile(s: Bytes, known: bool, handshaked: bool, fromClient: bool)
    ensures var p := Consume(s, known, handshaked, fromClient);
            && (forall c :: 0 <= c < |p.cuts| ==> 1 <= p.cuts[c])
            && Sum(p.cuts) <= |s|
            && (p.error == None ==> Sum(p.cuts) == |s|)
            && (p.error == None && s != [] ==> p.known)
            && (known ==> p.known)
            && (!known && p.known ==> p.cuts != [] && FirstPacket(s) == Ok(p.cuts[0]))
    decreases |s|
  {
    hide ParseHeader, FirstPacket, FollowingPacket;
    if s == [] {
    } else if !known {
      if FirstPacket(s).Ok? {
        PiecesTile(s[FirstPacket(s).value..], true, false, fromClient);
        SumOfCut(FirstPacket(s).value, Consume(s[FirstPacket(s).value..], true, false, fromClient));
      }
    } else {
      var r := FollowingPacket(s, handshaked, fromClient);
      if r.Ok? {
        PiecesTile(s[r.value.0..], true, r.value.1, fromClient);
        SumOfCut(r.value.0, Consume(s[r.value.0..], true, r.value.1, fromClient));
      }
    }
  }

  lemma SumOfCut(n: nat, p: Progress)
    ensures Sum(Cut(n, p).cuts) == n + Sum(p.cuts)
  {
    assert Cut(n, p).cuts[1..] == p.cuts;
  }

  /** Only an unknown or half-open connection turns a datagram away without stopping the program. */
  lemma {:induction false} HandshakedAcceptsAll(s: Bytes, fromClient: bool)
    ensures Consume(s, true, true, fromClient).error == None
    ensures Consume(s, true, true, fromClient).handshaked
  {
    if s != [] {
      assert s[|s|..] == [];
    }
  }

  lemma HandshakedTakesAll(s: Bytes, fromClient: bool)
    requires s != []
    ensures FollowingPacket(s, true, fromClient) == Ok((|s|, true))
  {
  }

  /** Two runs that end alike. */
  ghost predicate SameEnd(p: Progress, q: Progress) {
    p.known == q.known && p.handshaked == q.handshaked && p.error == q.error
  }

  lemma ConsumeUnfolds(s: Bytes, known: bool, handshaked: bool, fromClient: bool)
    requires s != []
    ensures var p := Consume(s, known, handshaked, fromClient);
            if known then
              var r := FollowingPacket(s, handshaked, fromClient);
              if r.Err? then p == Progress(true, handshaked, [], Some(r.error))
              else SameEnd(p, Consume(s[r.value.0..], true, r.value.1, fromClient))
            else
              var r := FirstPacket(s);
              if r.Err? then p == Progress(false, handshaked, [], Some(r.error))
              else SameEnd(p, Consume(s[r.value..], true, false, fromClient))
  {
    hide ParseHeader, FirstPacket, FollowingPacket;
  }

  lemma ConsumeNothing(known: bool, handshaked: bool, fromClient: bool)
    ensures Consume([], known, handshaked, fromClient) == Progress(known, handshaked, [], None)
  {
  }

  /**
   A connection can be opened by a datagram that is then turned away: an Initial packet with a
   short-header packet behind it. The datagram is sent on, but no connection queues it.
   */
  lemma OpenedThenTurnedAway(low: nat, dcid: Bytes, scid: Bytes, token: Bytes, payload: Bytes, short: Byte, tail: Bytes)
    requires low < 16 && |dcid| <= MAX_CID_LEN && |scid| <= MAX_CID_LEN
    requires |token| < VARINT_LIMIT && |payload| < VARINT_LIMIT && 0 < short < 128
    ensures Capacity(8) == VARINT_LIMIT
    ensures var s := LongHeader(Initial, low, VERSION_1, dcid, scid, token, Var(|token|, 8), Var(|payload|, 8)) +
                     payload + [short] + tail;
            Consume(s, false, false, true) == Progress(true, false, [|s| - 1 - |tail|], Some(InvalidState))
  {
    Capacities();
    hide Capacity, LongHeader, ParseHeader;
    var head := LongHeader(Initial, low, VERSION_1, dcid, scid, token, Var(|token|, 8), Var(|payload|, 8));
    var after := [short] + tail;
    var s := head + payload + [short] + tail;
    assert s == head + (payload + after);
    ParseRecoversLongHeader(Initial, low, VERSION_1, dcid, scid, token, Var(|token|, 8), Var(|payload|, 8),
                            payload + after, 0);
    assert (payload + after)[|payload|..] == after;
    var n := |s| - |after|;
    assert FirstPacket(s) == Ok(n);
    assert s[n..] == after;
    ShortHeaderIsTurnedAway(after);
  }

  /** A server's Handshake packet, alone in its datagram, is accepted. */
  lemma HandshakeIsAccepted(low: nat, dcid: Bytes, scid: Bytes, payload: Bytes)
    requires low < 16 && |dcid| <= MAX_CID_LEN && |scid| <= MAX_CID_LEN && |payload| < VARINT_LIMIT
    ensures Capacity(8) == VARINT_LIMIT
    ensures var s := LongHeader(Handshake, low, VERSION_1, dcid, scid, [], Var(0, 8), Var(|payload|, 8)) + payload;
            Consume(s, true, false, false) == Progress(true, true, [|s|], None)
  {
    Capacities();
    hide Capacity, LongHeader, ParseHeader;
    var head := LongHeader(Handshake, low, VERSION_1, dcid, scid, [], Var(0, 8), Var(|payload|, 8));
    var s := head + payload;
    ParseRecoversLongHeader(Handshake, low, VERSION_1, dcid, scid, [], Var(0, 8), Var(|payload|, 8), payload, 0);
    assert payload[|payload|..] == [];
    assert FollowingPacket(s, false, false) == Ok((|s|, true));
    assert s[|s|..] == [];
  }

  /** A long header of another type opens no connection, whatever comes after it. */
  lemma OnlyInitialOpens(ty: PacketType, low: nat, version: nat, dcid: Bytes, scid: Bytes, token: Bytes, tokenLen: Var,
                         length: Var, rest: Bytes, fromClient: bool)
    requires ty in {ZeroRtt, Handshake, Retry} && low < 16 && 0 < version < 0x1_0000_0000
    requires |dcid| <= if version == VERSION_1 then MAX_CID_LEN else 255
    requires |scid| <= if version == VERSION_1 then MAX_CID_LEN else 255
    requires tokenLen.Fits() && length.Fits() && tokenLen.value == |token|
    ensures var s := LongHeader(ty, low, version, dcid, scid, token, tokenLen, length) + rest;
            Consume(s, false, false, fromClient) == Progress(false, false, [], Some(MayNotQuic))
  {
    hide LongHeader, ParseHeader;
    ParseRecoversLongHeader(ty, low, version, dcid, scid, token, tokenLen, length, rest, 0);
    assert LongHeader(ty, low, version, dcid, scid, token, tokenLen, length) + rest != [] by {
      NothingToParse();
    }
  }

  lemma NothingToParse()
    ensures ParseHeader([], 0) == Err(TooShort)
  {
  }

  /** An Initial packet with nothing but padding behind it is taken whole, by a new connection or a known one. */
  lemma PaddedInitialIsTaken(low: nat, dcid: Bytes, scid: Bytes, token: Bytes, payload: Bytes, padding: Bytes,
                             known: bool, fromClient: bool)
    requires low < 16 && |dcid| <= MAX_CID_LEN && |scid| <= MAX_CID_LEN
    requires |token| < VARINT_LIMIT && |payload| < VARINT_LIMIT && (padding != [] ==> padding[0] == 0)
    ensures Capacity(8) == VARINT_LIMIT
    ensures var s := LongHeader(Initial, low, VERSION_1, dcid, scid, token, Var(|token|, 8), Var(|payload|, 8)) +
                     (payload + padding);
            Consume(s, known, false, fromClient) == Progress(true, false, [|s|], None)
  {
    Capacities();
    hide Capacity, LongHeader, ParseHeader;
    var s := LongHeader(Initial, low, VERSION_1, dcid, scid, token, Var(|token|, 8), Var(|payload|, 8)) +
             (payload + padding);
    ParseRecoversLongHeader(Initial, low, VERSION_1, dcid, scid, token, Var(|token|, 8), Var(|payload|, 8),
                            payload + padding, 0);
    assert (payload + padding)[|payload|..] == padding;
    assert s != [] by {
      NothingToParse();
    }
    assert s[|s|..] == [];
  }

  /** A Handshake packet of the client, before the server's, ends the program. */
  lemma ClientHandshakePanics(low: nat, dcid: Bytes, scid: Bytes, length: Var, rest: Bytes)
    requires low < 16 && |dcid| <= MAX_CID_LEN && |scid| <= MAX_CID_LEN && length.Fits() && Var(0, 8).Fits()
    ensures var s := LongHeader(Handshake, low, VERSION_1, dcid, scid, [], Var(0, 8), length) + rest;
            Consume(s, true, false, true) == Progress(true, false, [], Some(Panicked))
  {
    hide LongHeader, ParseHeader, Var.Fits;
    ParseRecoversLongHeader(Handshake, low, VERSION_1, dcid, scid, [], Var(0, 8), length, rest, 0);
    assert LongHeader(Handshake, low, VERSION_1, dcid, scid, [], Var(0, 8), length) + rest != [] by {
      NothingToParse();
    }
  }

  /** A packet that is cut short ends the program. */
  lemma CutShortFails(ty: PacketType, low: nat, dcid: Bytes, scid: Bytes, token: Bytes, tokenLen: Var, length: Var,
                      rest: Bytes, known: bool)
    requires ty == Initial || (known && ty in {ZeroRtt, Handshake})
    requires low < 16 && |dcid| <= MAX_CID_LEN && |scid| <= MAX_CID_LEN
    requires tokenLen.Fits() && length.Fits() && tokenLen.value == |token| && length.value > |rest|
    ensures var s := LongHeader(ty, low, VERSION_1, dcid, scid, token, tokenLen, length) + rest;
            Consume(s, known, false, false).error == Some(TooShort)
  {
    hide LongHeader, ParseHeader, Var.Fits;
    ParseRecoversLongHeader(ty, low, VERSION_1, dcid, scid, token, tokenLen, length, rest, 0);
    assert LongHeader(ty, low, VERSION_1, dcid, scid, token, tokenLen, length) + rest != [] by {
      NothingToParse();
    }
  }

  lemma ShortHeaderIsTurnedAway(s: Bytes)
    requires s != [] && s[0] < 128
    ensures Consume(s, true, false, true) == Progress(true, false, [], Some(InvalidState))
  {
    assert TakeBytes(s, 1).Ok? && TakeBytes(s, 1).value.0[0] == s[0];
  }
}
