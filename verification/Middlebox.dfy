/** The middlebox (`pemi/src/lib.rs`): connections, idle expiry, and retransmissions. */
module Middlebox {
  import opened Base
  import opened Flowlets
  import opened QueueModel
  import opened PacketQueues
  import opened QuicHeader
  import opened Coalesced
  import opened Connections
  import opened IdleHeap
  import opened Accounts

  /**
   What became of a datagram: dealt with by its connection, sent on as it is, an error that
   ends the program, or a panic.
   */
  datatype Outcome = Accepted | PassedOn | Failed(error: ParseError) | Stopped

  /** What the congestion controller makes of an event of its connection. */
  datatype Verdict = WithinPace | TooFast | Panics

  /** The tasks an event leaves, and the sizes of the queues they will be recorded in. */
  datatype Plan = Plan(tasks: seq<Task>, sizes: map<ConnId, nat>)

  /** How many of `n` packets the limit lets through. */
  function Quota(retransPkts: nat, pkts: nat, n: nat): nat {
    var room := pkts / 10 + 1 - retransPkts;
    if pkts <= UNLIMITED_PKTS || n <= room then n else if room < 0 then 0 else room
  }

  /** The limit lets packets through exactly as long as it is not exceeded. */
  lemma QuotaIsExact(retransPkts: nat, pkts: nat, n: nat)
    ensures var q := Quota(retransPkts, pkts, n);
            && q <= n && (pkts <= 100 ==> q == n)
            && (q < n ==> 10 * (retransPkts + q) > pkts)
            && (q > 0 && pkts > 100 ==> 10 * (retransPkts + q - 1) <= pkts)
  {
  }

  /** Without a limit every loss of every task is sent again. */
  lemma {:induction false} AllAreResent(tasks: seq<Task>, retransPkts: nat, pkts: nat, i: nat, d: Datagram)
    requires pkts <= 100 && i < |tasks| && d in tasks[i].queue
    ensures d in Resends(tasks, retransPkts, pkts)
    decreases |tasks|
  {
    var task := tasks[|tasks| - 1];
    var n := Quota(retransPkts, pkts, |task.queue|);
    QuotaIsExact(retransPkts, pkts, |task.queue|);
    assert task.queue[..n] == task.queue;
    if i < |tasks| - 1 {
      AllAreResent(tasks[..|tasks| - 1], retransPkts + n, pkts, i, d);
    }
  }

  /** These tasks, the newest first, fit the queues of their connections, of these sizes. */
  ghost predicate Fits(tasks: seq<Task>, sizes: map<ConnId, nat>, retransPkts: nat, pkts: nat) {
    tasks == [] ||
      var task := tasks[|tasks| - 1];
      var n := Quota(retransPkts, pkts, |task.queue|);
      && TaskId(task) in sizes
      && (n == 0 || sizes[TaskId(task)] + n <= MAX_QUEUED + 1)
      && Fits(tasks[..|tasks| - 1], sizes[TaskId(task) := sizes[TaskId(task)] + n], retransPkts + n, pkts)
  }

  /** The sizes of the queues once these tasks, the newest first, are carried out and recorded. */
  ghost function Grown(tasks: seq<Task>, sizes: map<ConnId, nat>, retransPkts: nat, pkts: nat): map<ConnId, nat> {
    if tasks == [] || TaskId(tasks[|tasks| - 1]) !in sizes then sizes
    else
      var task := tasks[|tasks| - 1];
      var n := Quota(retransPkts, pkts, |task.queue|);
      Grown(tasks[..|tasks| - 1], sizes[TaskId(task) := sizes[TaskId(task)] + n], retransPkts + n, pkts)
  }

  /** What these tasks, the newest first, send to clients again. */
  ghost function Resends(tasks: seq<Task>, retransPkts: nat, pkts: nat): seq<Datagram> {
    if tasks == [] then []
    else
      var task := tasks[|tasks| - 1];
      var n := Quota(retransPkts, pkts, |task.queue|);
      task.queue[..n] + Resends(tasks[..|tasks| - 1], retransPkts + n, pkts)
  }

  /** The bytes end the program, at a connection that is known or not, but not handshaked. */
  ghost predicate Unreadable(buf: Bytes, known: bool, fromClient: bool) {
    Consume(buf, known, false, fromClient).error in {Some(TooShort), Some(Panicked)}
  }

  class Pemi {
    const intervalFactor: Duration
    const endFactor: Duration
    var conns: map<ConnId, Conn>
    var accessTimes: seq<AccessTime>
    var pkts: nat
    var retransPkts: nat
    var retransTasks: seq<Task>

    /** The datagrams sent to clients a second time. */
    var resent: seq<Datagram>

    ghost var clock: Time

    /** The objects that make up the connections. */
    ghost var repr: set<object>

    /** The connection filed under `id`. */
    function At(id: ConnId): Conn
      reads `conns
      requires id in conns
    {
      conns[id]
    }

    /** All objects are accounted for in `repr`. */
    ghost predicate OwnsAll()
      reads `conns, `repr
    {
      && this !in repr
      && forall id :: id in conns ==>
           conns[id] in repr && conns[id].toServerQueue in repr && conns[id].toClientQueue in repr
    }

    static ghost predicate Apart(c: Conn, d: Conn) {
      && c != d
      && c.toClientQueue != d.toClientQueue && c.toClientQueue != d.toServerQueue
      && c.toServerQueue != d.toClientQueue && c.toServerQueue != d.toServerQueue
    }

    /** Every connection keeps its own invariant, and no two share state. */
    ghost predicate ConnsOk()
      reads `conns, `repr, repr
    {
      && OwnsAll()
      && (forall id {:trigger conns[id].Valid()} :: id in conns ==> conns[id].Valid())
      && (forall id :: id in conns ==> conns[id].HasFactors(intervalFactor, endFactor))
      && (forall a, b {:trigger Apart(conns[a], conns[b])} :: a in conns && b in conns && a != b ==>
            Apart(conns[a], conns[b]))
    }

    ghost function Views(): map<ConnId, View>
      reads `conns, `repr, repr
      requires OwnsAll()
    {
      map id | id in conns :: conns[id].View()
    }

    ghost function Ledger(): Books
      reads this, repr
      requires OwnsAll()
    {
      Books(Views(), accessTimes, retransTasks, pkts, retransPkts, clock)
    }

    /**
     Everything is in order, and `spare` more retransmissions would be covered. The trigger keeps
     the books closed where nothing speaks of them.
     */
    ghost predicate Sound(spare: nat)
      reads this, repr
    {
      && ConnsOk() && |resent| == retransPkts
      && forall b {:trigger Balanced(b, spare)} :: b == Ledger() ==> Balanced(b, spare)
    }

    ghost predicate Valid()
      reads this, repr
    {
      Sound(0)
    }

    constructor (now: Time, interval: Duration, end: Duration)
      ensures Valid() && OwnsAll() && conns == map[] && retransTasks == [] && repr == {}
      ensures pkts == retransPkts == 0 && clock == now
      ensures accessTimes == [] && resent == [] && intervalFactor == interval && endFactor == end
    {
      intervalFactor, endFactor := interval, end;
      conns, accessTimes, pkts, retransPkts, retransTasks := map[], [], 0, 0, [];
      clock, repr, resent := now, {}, [];
    }

    /** The effect on the connections of a step that touches only connection `id`. */
    twostate lemma OneConnChanged(id: ConnId)
      requires old(ConnsOk())
      requires conns == old(conns) && repr == old(repr) && id in conns && conns[id].Valid()
      requires forall o :: o in repr && o !in conns[id].Repr() ==> unchanged(o)
      requires conns[id].HasFactors(intervalFactor, endFactor)
      ensures ConnsOk() && Views() == old(Views())[id := conns[id].View()]
    {
      hide Conn.Valid, Conn.View;
      forall k | k in conns && k != id
        ensures conns[k].Valid() && conns[k].View() == old(conns[k].View())
      {
        assert Apart(conns[k], conns[id]);
      }
      var before, after := old(Views()), Views();
      assert after.Keys == before.Keys;
      forall k | k in after
        ensures after[k] == before[id := conns[id].View()][k]
      {
      }
    }

    /** What a step on one connection finds. */
    lemma ConnIsReady(id: ConnId, spare: nat)
      requires Sound(spare) && id in conns
      ensures OwnsAll() && conns[id].Valid() && conns[id].lastAccess <= conns[id].clock <= clock
      ensures conns[id].HasFactors(intervalFactor, endFactor)
      ensures ConnIdOf(conns[id].clientAddr, conns[id].serverAddr) == id
      ensures forall k :: k in conns && k != id ==> Apart(conns[k], conns[id])
    {
      hide Balanced, Conn.Valid;
      ClockIsAhead(Ledger(), spare, id);
      FiledById(Ledger(), spare, id);
    }

    /** A step that touches only connection `id`, and sends nothing again, keeps everything in order. */
    twostate lemma OneConnTouched(id: ConnId, new spare: nat, new left: nat)
      requires old(Sound(spare)) && conns == old(conns) && repr == old(repr) && id in conns
      requires unchanged(`accessTimes) && unchanged(`retransTasks) && unchanged(`pkts) && unchanged(`retransPkts)
      requires unchanged(`resent) && old(clock) <= clock
      requires forall o :: o in repr && o !in conns[id].Repr() ==> unchanged(o)
      requires conns[id].Valid() && conns[id].lastAccess <= conns[id].clock <= clock
      requires Succeeds(conns[id].View(), old(conns[id].View()))
      requires conns[id].View().load + left <= old(conns[id].View()).load + spare
      requires conns[id].HasFactors(intervalFactor, endFactor)
      ensures Sound(left)
    {
      hide Balanced, Conn.Valid, Conn.View;
      ViewShowsTimes(conns[id]);
      OneConnChanged(id);
      TouchKeepsBooks(old(Ledger()), spare, id, conns[id].View(), clock, left);
    }

    lemma ViewShowsTimes(c: Conn)
      ensures c.View().lastAccess == c.lastAccess && c.View().clock == c.clock
    {
    }

    // -------------------------------------------------------------- connections

    /** `new_conn`. */
    method NewConn(id: ConnId, c: Conn, now: Time, ghost spare: nat)
      requires Sound(spare) && id !in conns && now >= clock
      requires c.Valid() && c.Repr() !! repr && id == ConnIdOf(c.clientAddr, c.serverAddr)
      requires c.lastAccess == c.clock == now && c.toClientQueue.Load() == 0
      modifies `conns, `accessTimes, `clock, `repr, c.toServerQueue`intervalFactor, c.toServerQueue`endFactor,
        c.toClientQueue`intervalFactor, c.toClientQueue`endFactor
      ensures Sound(spare) && clock == now && repr == old(repr) + c.Repr() && conns == old(conns)[id := c]
      ensures Ledger() == Opened(old(Ledger()), id, c.View(), now)
      ensures c.Seen() == old(c.Seen()) && c.Protected() == old(c.Protected())
      ensures c.HasFactors(intervalFactor, endFactor)
      ensures accessTimes == old(accessTimes) + [AccessTime(now, id)]
    {
      hide Conn.Valid, Balanced;
      ghost var before := Ledger();
      c.SetFactors(intervalFactor, endFactor);
      conns := conns[id := c];
      accessTimes := accessTimes + [AccessTime(now, id)];
      clock := now;
      repr := repr + c.Repr();
      OneConnAdded(id);
      OpenKeepsBooks(before, spare, id, c.View(), now);
    }

    /** The effect on the connections of adding connection `id`. */
    twostate lemma OneConnAdded(id: ConnId)
      requires old(ConnsOk()) && id !in old(conns) && id in conns && conns == old(conns)[id := conns[id]]
      requires conns[id].Valid() && old(repr) <= repr && this !in repr
      requires conns[id] in repr && conns[id].toServerQueue in repr && conns[id].toClientQueue in repr
      requires conns[id] !in old(repr) && conns[id].toServerQueue !in old(repr) && conns[id].toClientQueue !in old(repr)
      requires forall o :: o in old(repr) ==> unchanged(o)
      requires conns[id].HasFactors(intervalFactor, endFactor)
      ensures ConnsOk() && Views() == old(Views())[id := conns[id].View()]
    {
      hide Conn.Valid, Conn.View;
      forall k | k in old(conns)
        ensures conns[k].Valid() && conns[k].View() == old(conns[k].View())
      {
        assert conns[k] == old(conns)[k];
      }
      assert ConnsOk();
    }

    /** Whether the handshake of connection `id` has been seen. */
    ghost predicate Handshaked(id: ConnId)
      reads `conns, `repr, repr
      requires OwnsAll()
    {
      id in conns && conns[id].handshaked
    }

    /** What connection `id` has seen so far. */
    ghost function Seen(id: ConnId): History
      reads `conns, `repr, repr
      requires OwnsAll()
    {
      if id in conns then conns[id].Seen() else NOTHING_SEEN
    }

    /** The stream of the client of connection `id`. */
    ghost function Stream(id: ConnId): seq<Bytes>
      reads `conns, `repr, repr
      requires OwnsAll()
    {
      Seen(id).arrived
    }

    /** How connection `id` protects its client. */
    ghost function Protected(id: ConnId): Protection
      reads `conns, `repr, repr
      requires OwnsAll()
    {
      if id in conns then conns[id].Protected() else UNPROTECTED
    }

    /** How it will, once datagram `buf` has been delivered to it. */
    ghost function NextProtected(id: ConnId, src: Addr, now: Time, buf: Bytes, fast: bool): Protection
      reads `conns, `repr, repr
      requires OwnsAll()
    {
      if id in conns then conns[id].NextProtected(now, src, buf, fast) else UNPROTECTED
    }

    /** The circumstances of a datagram of connection `id`. */
    ghost function RegimeAt(id: ConnId, src: Addr, now: Time, fast: bool, seen: bool): Regime
      reads `conns, `repr, repr
      requires OwnsAll()
    {
      if id in conns then conns[id].RegimeAt(now, src, fast, seen) else Regime(0.0, None, None, seen)
    }

    /** When connection `id` was last accessed. */
    ghost function Access(id: ConnId): Option<Time>
      reads `conns, `repr, repr
      requires OwnsAll()
    {
      if id in conns then Some(conns[id].lastAccess) else None
    }

    /** The history, the protection and the last access of every connection. */
    ghost function Records(): map<ConnId, (History, Protection, Time)>
      reads `conns, `repr, repr
      requires OwnsAll()
    {
      map k | k in conns :: (conns[k].Seen(), conns[k].Protected(), conns[k].lastAccess)
    }

    /** Connection `k` has the same history, protection and last access. */
    twostate predicate SameRecord(k: ConnId)
      reads `conns, `repr, repr
      requires OwnsAll() && old(OwnsAll())
    {
      Seen(k) == old(Seen(k)) && Protected(k) == old(Protected(k)) && Access(k) == old(Access(k))
    }

    /** A step that changes only connection `id`, apart from those gone, keeps the records of all others. */
    twostate lemma RecordsElsewhere(id: ConnId, new gone: set<ConnId>)
      requires OwnsAll() && old(OwnsAll()) && conns - {id} == old(conns) - gone - {id}
      requires forall k :: k in conns && k != id ==> SameRecord(k)
      ensures Records() - {id} == old(Records()) - gone - {id}
    {
      hide Conn.Seen, Conn.Protected;
      var a, b := Records() - {id}, old(Records()) - gone - {id};
      assert forall k :: k in a <==> k in conns - {id};
      assert forall k :: k in b <==> k in old(conns) - gone - {id};
      assert a.Keys == b.Keys;
      forall k | k in a
        ensures a[k] == b[k]
      {
        assert k in conns && k in old(conns) && SameRecord(k);
        assert a[k] == (Seen(k), Protected(k), conns[k].lastAccess);
      }
    }

    twostate lemma NoneGone(id: ConnId)
      requires OwnsAll() && old(OwnsAll()) && conns - {id} == old(conns) - {id}
      requires forall k :: k in conns && k != id ==> SameRecord(k)
      ensures Records() - {id} == old(Records()) - {id}
    {
      hide Pemi.SameRecord, Pemi.Records;
      assert old(conns) - {} == old(conns) && old(Records()) - {} == old(Records());
      RecordsElsewhere(id, {});
    }

    /** What equal records say of one connection. */
    twostate lemma RecordOf(k: ConnId, new id: ConnId, new gone: set<ConnId>)
      requires OwnsAll() && old(OwnsAll()) && Records() - {id} == old(Records()) - gone - {id} && k in conns && k != id
      ensures k in old(conns) && k !in gone && SameRecord(k)
    {
      hide Conn.Seen, Conn.Protected;
      assert k in Records() - {id} && (Records() - {id})[k] == (Seen(k), Protected(k), conns[k].lastAccess);
      assert k in old(Records()) - gone - {id} && (old(Records()) - gone - {id})[k] == old(Records())[k];
    }

    /** The losses of connection `id` that are declared but not handed over. */
    ghost function Pending(id: ConnId): seq<Datagram>
      reads `conns, `repr, repr
      requires OwnsAll()
    {
      var log, n := Protected(id).log, |Seen(id).handed|;
      if n <= |log| then log[n..] else []
    }

    /** Where the datagrams of the client of connection `id` are. */
    ghost function Out(id: ConnId): Outgoing
      reads `conns, `repr, repr
      requires OwnsAll()
    {
      Seen(id).out
    }

    ghost function Outs(): map<ConnId, Outgoing>
      reads `conns, `repr, repr
      requires OwnsAll()
    {
      map k | k in conns :: Out(k)
    }

    /** What sending packets of connection `id` again leaves alone. */
    ghost function Standing(id: ConnId): (seq<Bytes>, seq<Datagram>, Option<Time>, Outgoing)
      reads `conns, `repr, repr
      requires OwnsAll()
    {
      (Stream(id), Pending(id), Access(id), Out(id))
    }

    /** Between events: every connection has heard from its client, and no loss is pending. */
    ghost predicate Settled()
      reads `conns, `repr, repr
      requires OwnsAll()
    {
      forall k :: k in conns ==> Stream(k) != [] && Pending(k) == []
    }

    ghost predicate AtRest()
      reads this, repr
    {
      Valid() && OwnsAll() && retransTasks == [] && Settled()
    }

    /** A datagram from `src` would make connection `id` stop the program. */
    ghost predicate StopsAt(id: ConnId, src: Addr)
      reads `conns, `repr, repr
      requires OwnsAll()
    {
      id in conns && conns[id].Stops(src)
    }

    /** The connections that a sweep at `now` removes: they are idle, and so is their heap entry. */
    ghost function Doomed(now: Time): set<ConnId>
      reads `conns, `repr, `accessTimes, repr
      requires OwnsAll()
    {
      set id | id in conns && conns[id].IsIdle(now) && HasStale(accessTimes, id, now)
    }

    /** The sender is the client; it is, if the datagram opens the connection. */
    ghost predicate FromClient(id: ConnId, src: Addr)
      reads `conns
    {
      id in conns ==> conns[id].IsFromClient(src)
    }

    /** `process_quic_packet` on the connection filed under `id`. */
    method TrackHandshake(s: Bytes, id: ConnId, now: Time, src: Addr, ghost spare: nat)
      returns (r: Result<nat, ParseError>)
      requires Sound(spare) && now >= clock && s != [] && id in conns
      modifies `clock, At(id)`lastAccess, At(id)`handshaked, At(id)`clock
      ensures Sound(spare) && OwnsAll() && clock == now && conns[id].lastAccess == now
      ensures r.Err? ==> FollowingPacket(s, old(conns[id].handshaked), conns[id].IsFromClient(src)) == Err(r.error)
      ensures r.Ok? ==> FollowingPacket(s, old(conns[id].handshaked), conns[id].IsFromClient(src)) ==
                        Ok((r.value, conns[id].handshaked))
      ensures r.Err? && r.error in {MayNotQuic, InvalidState} ==> !conns[id].handshaked
    {
      hide Sound, Conn.Valid, PacketQueue.Load, FollowingPacket, LastNumber;
      ConnIsReady(id, spare);
      if conns[id].handshaked {
        HandshakedTakesAll(s, conns[id].IsFromClient(src));
      }
      r := conns[id].ProcessQuicPacket(now, s, src);
      clock := now;
      OneConnTouched(id, spare, spare);
    }

    /** The first packet of a datagram that belongs to no connection. */
    method OpenConn(s: Bytes, id: ConnId, now: Time, src: Addr, dst: Addr, ghost spare: nat)
      returns (r: Result<nat, ParseError>)
      requires Sound(spare) && now >= clock && id !in conns && id == ConnIdOf(src, dst)
      modifies `conns, `accessTimes, `clock, `repr
      ensures Sound(spare) && OwnsAll() && clock <= now && fresh(repr - old(repr))
      ensures r.Err? ==> FirstPacket(s) == Err(r.error) && conns == old(conns) && accessTimes == old(accessTimes)
      ensures r.Ok? ==> FirstPacket(s) == Ok(r.value) && id in conns && conns == old(conns)[id := conns[id]]
      ensures r.Ok? ==> !conns[id].handshaked && conns[id].IsFromClient(src) && conns[id].lastAccess == now
      ensures r.Ok? ==> conns[id].Seen() == NOTHING_SEEN && !conns[id].Stops(src)
      ensures r.Ok? ==> conns[id].Protected() == conns[id].AfterReplyAt(now) == UNPROTECTED
      ensures r.Ok? ==> forall x, h :: conns[id].RegimeAt(now, src, x, h) == Regime(0.0, None, None, h)
      ensures r.Ok? ==> accessTimes == old(accessTimes) + [AccessTime(now, id)]
    {
      hide Balanced, FirstPacket, Conn.Valid;
      var first := Conn.FirstQuicPacket(now, src, dst, s);
      if first.Err? {
        return Err(first.error);
      }
      NewcomerNeverStops(first.value.0, src);
      NewConn(id, first.value.0, now, spare);
      NoFlowletFits(first.value.0, now);
      r := Ok(first.value.1);
    }

    lemma NewcomerNeverStops(c: Conn, src: Addr)
      requires c.Valid() && c.clientAddr == src && c.serverRtt == 0.0 && c.Seen().accepted == 0
      ensures !c.Stops(src)
    {
    }

    /** Dealing with one connection, or opening it, leaves what a sweep would do to all others. */
    twostate lemma DoomedElsewhere(id: ConnId, new now: Time)
      requires old(OwnsAll()) && OwnsAll()
      requires accessTimes == old(accessTimes) || accessTimes == old(accessTimes) + [AccessTime(now, id)]
      requires forall k :: k in old(conns) && k != id ==> k in conns && conns[k] == old(conns)[k] && unchanged(conns[k])
      requires conns.Keys <= old(conns).Keys + {id}
      ensures Doomed(now) - {id} == old(Doomed(now)) - {id}
    {
      hide HasStale;
      forall k | k in old(conns) && k != id
        ensures HasStale(accessTimes, k, now) == HasStale(old(accessTimes), k, now)
      {
        StaleBefore(old(accessTimes), AccessTime(now, id), k, now);
      }
    }

    /** What reading one packet of a datagram of connection `id`, from bytes `s`, does. */
    twostate predicate ReadOne(s: Bytes, id: ConnId, now: Time, src: Addr, new r: Result<nat, ParseError>)
      reads `conns, `repr, `accessTimes, repr
      requires OwnsAll() && old(OwnsAll())
    {
      && (r.Ok? ==> id in conns) && (r.Err? ==> conns == old(conns))
      && conns - {id} == old(conns) - {id} && (id in old(conns) ==> id in conns && conns[id] == old(conns)[id])
      && (r.Err? ==> Consume(s, id in old(conns), old(Handshaked(id)), old(FromClient(id, src))) ==
                     Progress(id in old(conns), old(Handshaked(id)), [], Some(r.error)))
      && (r.Ok? ==> 1 <= r.value <= |s|)
      && (r.Ok? && r.value <= |s| ==>
            SameEnd(Consume(s, id in old(conns), old(Handshaked(id)), old(FromClient(id, src))),
                    Consume(s[r.value..], true, Handshaked(id), FromClient(id, src))))
      && (id in conns ==> conns[id].lastAccess == now)
      && (forall k :: k != id ==> Access(k) == old(Access(k)))
      && (forall k :: Seen(k) == old(Seen(k)) && Protected(k) == old(Protected(k)))
      && (forall b, x :: NextProtected(id, src, now, b, x) == old(NextProtected(id, src, now, b, x)))
      && (forall x, h :: RegimeAt(id, src, now, x, h) == old(RegimeAt(id, src, now, x, h)))
      && (r.Err? && r.error in {MayNotQuic, InvalidState} ==> !Handshaked(id))
      && StopsAt(id, src) == old(StopsAt(id, src)) && FromClient(id, src) == old(FromClient(id, src))
      && Doomed(now) - {id} == old(Doomed(now)) - {id}
    }

    /** One packet of a datagram: it opens its connection, or is tracked by it. */
    method ConsumeOne(s: Bytes, id: ConnId, now: Time, src: Addr, dst: Addr, ghost spare: nat)
      returns (r: Result<nat, ParseError>)
      requires Sound(spare) && OwnsAll() && now >= clock && s != [] && id == ConnIdOf(src, dst)
      modifies `conns, `accessTimes, `clock, `repr, repr
      ensures retransTasks == old(retransTasks) && resent == old(resent)
      ensures Sound(spare) && OwnsAll() && clock <= now && fresh(repr - old(repr)) && ReadOne(s, id, now, src, r)
    {
      hide Sound, Pemi.ReadOne, ConnIdOf;
      if id in conns {
        r := ReadByKnown(s, id, now, src, spare);
      } else {
        r := ReadByNew(s, id, now, src, dst, spare);
      }
    }

    method ReadByKnown(s: Bytes, id: ConnId, now: Time, src: Addr, ghost spare: nat)
      returns (r: Result<nat, ParseError>)
      requires Sound(spare) && OwnsAll() && now >= clock && s != [] && id in conns
      modifies `clock, At(id)`lastAccess, At(id)`handshaked, At(id)`clock
      ensures Sound(spare) && OwnsAll() && clock == now && ReadOne(s, id, now, src, r)
    {
      hide Sound, FollowingPacket, FirstPacket, Consume, Conn.Valid, Conn.Stops, Pemi.Doomed, Conn.Protected,
        Conn.AfterReplyAt, Conn.AfterDataAt, Conn.Seen, Conn.RegimeAt, Conn.NextProtected;
      ConsumeUnfolds(s, id in conns, Handshaked(id), FromClient(id, src));
      ConnIsReady(id, spare);
      Owned(id);
      r := TrackHandshake(s, id, now, src, spare);
      DoomedElsewhere(id, now);
    }

    method ReadByNew(s: Bytes, id: ConnId, now: Time, src: Addr, dst: Addr, ghost spare: nat)
      returns (r: Result<nat, ParseError>)
      requires Sound(spare) && OwnsAll() && now >= clock && s != [] && id !in conns && id == ConnIdOf(src, dst)
      modifies `conns, `accessTimes, `clock, `repr
      ensures Sound(spare) && OwnsAll() && clock <= now && fresh(repr - old(repr)) && ReadOne(s, id, now, src, r)
    {
      hide Sound, FollowingPacket, FirstPacket, Consume, Conn.Valid, Conn.Stops, Pemi.Doomed, Conn.Protected,
        Conn.AfterReplyAt, Conn.AfterDataAt, Conn.Seen, Conn.RegimeAt;
      ConsumeUnfolds(s, false, false, true);
      r := OpenConn(s, id, now, src, dst, spare);
      DoomedElsewhere(id, now);
    }

    /**
     What working through the packets of a datagram of connection `id` does: it ends as the packets have it,
     opens at most that connection, tracks its handshake and access time, and leaves the rest as it was.
     */
    twostate predicate Parsed(buf: Bytes, id: ConnId, now: Time, src: Addr, new r: Result<(), ParseError>)
      reads `conns, `repr, `accessTimes, repr
      requires OwnsAll() && old(OwnsAll())
    {
      && (var p := Consume(buf, id in old(conns), old(Handshaked(id)), old(FromClient(id, src)));
          && r == (if p.error.Some? then Err(p.error.value) else Ok(()))
          && (id in conns <==> p.known)
          && (r.Ok? ==> Handshaked(id) == p.handshaked))
      && conns - {id} == old(conns) - {id} && (id in old(conns) ==> id in conns && conns[id] == old(conns)[id])
      && (r.Ok? && buf != [] ==> id in conns)
      && (buf != [] && id in conns ==> conns[id].lastAccess == now)
      && Records() - {id} == old(Records()) - {id}
      && Seen(id) == old(Seen(id)) && Protected(id) == old(Protected(id))
      && (forall b, x :: NextProtected(id, src, now, b, x) == old(NextProtected(id, src, now, b, x)))
      && (forall x, h :: RegimeAt(id, src, now, x, h) == old(RegimeAt(id, src, now, x, h)))
      && (r.Err? && r.error in {MayNotQuic, InvalidState} ==> !Handshaked(id))
      && StopsAt(id, src) == old(StopsAt(id, src)) && FromClient(id, src) == old(FromClient(id, src))
      && Doomed(now) - {id} == old(Doomed(now)) - {id}
    }

    /**
     `quic_conn_process`: works through the packets of a datagram; opens at most the one
     connection the datagram belongs to.
     */
    method QuicConnProcess(buf: Bytes, id: ConnId, now: Time, src: Addr, dst: Addr, ghost spare: nat)
      returns (r: Result<(), ParseError>)
      requires Sound(spare) && OwnsAll() && now >= clock && id == ConnIdOf(src, dst)
      modifies `conns, `accessTimes, `clock, `repr, repr
      ensures retransTasks == old(retransTasks) && resent == old(resent)
      ensures Sound(spare) && OwnsAll() && clock <= now && fresh(repr - old(repr))
      ensures Parsed(buf, id, now, src, r)
    {
      hide Consume, Sound, Pemi.StopsAt, Pemi.Doomed, Pemi.Handshaked, Pemi.FromClient, Pemi.Seen, Pemi.OwnsAll,
        Pemi.Protected, Pemi.NextProtected, Pemi.Access, Pemi.RegimeAt, Pemi.Parsed;
      ghost var fromClient := FromClient(id, src);
      ghost var p := Consume(buf, id in conns, Handshaked(id), fromClient);
      var left := |buf|;
      while left > 0
        invariant 0 <= left <= |buf| && Sound(spare) && OwnsAll() && clock <= now && fresh(repr - old(repr))
        invariant retransTasks == old(retransTasks) && resent == old(resent)
        invariant conns - {id} == old(conns) - {id} && (id in old(conns) ==> id in conns && conns[id] == old(conns)[id])
        invariant FromClient(id, src) == fromClient && StopsAt(id, src) == old(StopsAt(id, src))
        invariant Doomed(now) - {id} == old(Doomed(now)) - {id}
        invariant SameEnd(p, Consume(buf[|buf| - left..], id in conns, Handshaked(id), fromClient))
        invariant forall k :: Seen(k) == old(Seen(k)) && Protected(k) == old(Protected(k))
        invariant forall k :: k != id ==> Access(k) == old(Access(k))
        invariant forall b, x :: NextProtected(id, src, now, b, x) == old(NextProtected(id, src, now, b, x))
        invariant forall x, h :: RegimeAt(id, src, now, x, h) == old(RegimeAt(id, src, now, x, h))
        invariant left < |buf| ==> id in conns && conns[id].lastAccess == now
      {
        ghost var s := buf[|buf| - left..];
        var read := ConsumeOne(buf[|buf| - left..], id, now, src, dst, spare);
        if read.Err? {
          r := Err(read.error);
          IsParsed(buf, id, now, src, r);
          return;
        }
        assert s[read.value..] == buf[|buf| - (left - read.value)..];
        left := left - read.value;
      }
      assert buf[|buf|..] == [];
      ConsumeNothing(id in conns, Handshaked(id), fromClient);
      r := Ok(());
      IsParsed(buf, id, now, src, r);
    }

    twostate lemma IsParsed(new buf: Bytes, new id: ConnId, new now: Time, new src: Addr, new r: Result<(), ParseError>)
      requires OwnsAll() && old(OwnsAll())
      requires var p := Consume(buf, id in old(conns), old(Handshaked(id)), old(FromClient(id, src)));
               && r == (if p.error.Some? then Err(p.error.value) else Ok(()))
               && (id in conns <==> p.known) && (r.Ok? ==> Handshaked(id) == p.handshaked)
      requires conns - {id} == old(conns) - {id} && (id in old(conns) ==> id in conns && conns[id] == old(conns)[id])
      requires (r.Ok? && buf != [] ==> id in conns) && (buf != [] && id in conns ==> conns[id].lastAccess == now)
      requires forall k :: Seen(k) == old(Seen(k)) && Protected(k) == old(Protected(k))
      requires forall k :: k != id ==> Access(k) == old(Access(k))
      requires forall b, x :: NextProtected(id, src, now, b, x) == old(NextProtected(id, src, now, b, x))
      requires forall x, h :: RegimeAt(id, src, now, x, h) == old(RegimeAt(id, src, now, x, h))
      requires r.Err? && r.error in {MayNotQuic, InvalidState} ==> !Handshaked(id)
      requires StopsAt(id, src) == old(StopsAt(id, src)) && FromClient(id, src) == old(FromClient(id, src))
      requires Doomed(now) - {id} == old(Doomed(now)) - {id}
      ensures Parsed(buf, id, now, src, r)
    {
      hide Consume, Pemi.StopsAt, Pemi.Doomed, Pemi.Handshaked, Pemi.FromClient, Pemi.Seen, Pemi.Records,
        Pemi.Protected, Pemi.NextProtected, Pemi.Access, Pemi.RegimeAt;
      NoneGone(id);
    }

    // -------------------------------------------------------------- one datagram

    /** A client datagram is delayed when the server sends too fast, else sent on at once. */
    method SendOn(id: ConnId, now: Time, src: Addr, buf: Bytes, ghost spare: nat)
      requires Sound(spare) && id in conns
      modifies At(id)`delayed, At(id)`forwarded, At(id)`arrived, At(id)`blocks
      ensures Sound(spare)
      ensures var c := conns[id];
              c.Seen() == Arrived(old(c.Seen()), c.IsFromClient(src), DelayedAck(now, buf, c.clientRtt + c.serverRtt),
                                  if c.handshaked then c.overspeedBegin else None)
    {
      hide Sound, Conn.Valid, PacketQueue.Load, LastNumber, Conn.Seen, Arrived, Conn.Checked, Conn.HasFactors;
      ConnIsReady(id, spare);
      conns[id].SendOn(now, src, buf);
      OneConnTouched(id, spare, spare);
    }

    /** Delivers a datagram to its connection, unless that stops the program. */
    method Deliver(id: ConnId, now: Time, src: Addr, buf: Bytes, verdict: Verdict) returns (ok: bool)
      requires Sound(1) && id in conns && now >= clock
      requires src == conns[id].clientAddr || src == conns[id].serverAddr
      modifies `clock, conns[id].Repr()
      ensures conns == old(conns) && repr == old(repr)
      ensures ok == !(old(conns[id].Stops(src)) || verdict.Panics?)
      ensures !ok ==> Sound(1) && conns[id].Stops(src) == old(conns[id].Stops(src))
      ensures ok ==> Valid() && clock == now && conns[id].lastAccess == old(conns[id].lastAccess)
      ensures ok ==> var c := conns[id];
                c.Seen() == Delivered(old(c.Seen()), c.IsFromClient(src), now, buf,
                                      old(c.BeginAfter(now, src, verdict.TooFast?)))
      ensures ok ==> conns[id].Protected() == old(conns[id].NextProtected(now, src, buf, verdict.TooFast?))
    {
      hide Sound, Conn.Valid, Conn.Stops, PacketQueue.Load, LastNumber, Conn.Protected, Conn.NextProtected;
      ConnIsReady(id, 1);
      if conns[id].Stops(src) || verdict.Panics? {
        return false;
      }
      var _, _, _ := conns[id].ProcessUdpPacket(now, src, buf, verdict.TooFast?);
      clock := now;
      OneConnTouched(id, 1, 0);
      ok := true;
    }

    /**
     Connection `id`, with history `h`, has handed over all its losses. They are its task, if there
     are any, the direction is protected and the server is not too fast; else it has none.
     */
    ghost predicate HandsOver(id: ConnId, h: History, protect: bool)
      reads `conns, `repr, `retransTasks, repr
      requires OwnsAll() && id in conns
    {
      var c, g := conns[id], conns[id].Seen();
      && g == h.(handed := g.handed) && h.handed <= g.handed && c.toClientQueue.detectedLoss == []
      && var losses := g.handed[|h.handed|..];
         if losses != [] && protect && !c.overspeed then Task(c.serverAddr, c.clientAddr, losses) in retransTasks
         else NoTaskFor(retransTasks, id)
    }

    /** Collects the losses of a connection as a task. */
    method CollectTask(id: ConnId, protect: bool)
      requires Valid() && OwnsAll() && id in conns && NoTaskFor(retransTasks, id)
      modifies `retransTasks, conns[id].toClientQueue`detectedLoss, conns[id].toClientQueue`drained
      ensures Valid() && HandsOver(id, old(conns[id].Seen()), protect)
      ensures TasksKept(old(retransTasks), retransTasks, id) && conns[id].Protected() == old(conns[id].Protected())
    {
      hide Sound, Conn.Valid, Conn.View, Conn.Protected;
      ConnIsReady(id, 0);
      var task := conns[id].ToClientRetransTask(protect);
      assert Succeeds(conns[id].View(), old(conns[id].View()));
      if task.Some? {
        retransTasks := retransTasks + [task.value];
        TaskCollected(id, task.value);
      } else {
        OneConnTouched(id, 0, 0);
      }
    }

    twostate lemma TaskCollected(id: ConnId, new task: Task)
      requires old(Valid()) && conns == old(conns) && repr == old(repr) && id in conns
      requires retransTasks == old(retransTasks) + [task] && unchanged(`accessTimes) && unchanged(`clock)
      requires unchanged(`pkts) && unchanged(`retransPkts) && unchanged(`resent)
      requires forall o :: o in repr && o !in conns[id].Repr() ==> unchanged(o)
      requires conns[id].Valid() && conns[id].lastAccess <= conns[id].clock <= clock
      requires Succeeds(conns[id].View(), old(conns[id].View()))
      requires conns[id].View().load + |task.queue| <= old(conns[id].View()).load
      requires task.src == conns[id].serverAddr != conns[id].clientAddr && task.dst == conns[id].clientAddr
      requires id == TaskId(task) && old(NoTaskFor(retransTasks, id)) && CanResend(conns[id].View(), task.queue)
      requires conns[id].HasFactors(intervalFactor, endFactor)
      ensures Valid()
    {
      hide Balanced, Conn.Valid, Conn.View, CanResend, NoTaskFor;
      ViewShowsTimes(conns[id]);
      ViewShowsEnds(conns[id]);
      OneConnChanged(id);
      TaskKeepsBooks(old(Ledger()), id, conns[id].View(), task);
    }

    lemma ViewShowsEnds(c: Conn)
      ensures c.View().client == c.clientAddr && c.View().server == c.serverAddr
    {
    }

    // -------------------------------------------------------------- idle expiry

    /** No pending task belongs to a connection that is idle at `now`. */
    ghost predicate TasksAreLive(now: Time)
      reads `conns, `repr, `retransTasks, repr
      requires OwnsAll()
    {
      forall id :: id in conns && conns[id].IsIdle(now) ==> NoTaskFor(retransTasks, id)
    }

    /** Removes the connection at the top of the heap. */
    method CloseTop(top: nat)
      requires Valid() && top < |accessTimes| && TasksAreLive(clock)
      requires accessTimes[top].id in conns && conns[accessTimes[top].id].IsIdle(clock)
      modifies `conns, `accessTimes
      ensures Valid() && TasksAreLive(clock)
      ensures conns == old(conns) - {old(accessTimes)[top].id} && accessTimes == Without(old(accessTimes), top)
    {
      hide Balanced, Conn.Valid, Conn.View, Conn.IsIdle, NoTaskFor;
      ghost var before := Ledger();
      CloseKeepsBooks(before, 0, top);
      var id := accessTimes[top].id;
      conns := conns - {id};
      accessTimes := Without(accessTimes, top);
      assert Views() == before.views - {id};
      assert ConnsOk();
    }

    /** Enters the connection at the top of the heap again. */
    method ReenterTop(top: nat, now: Time)
      requires Valid() && top < |accessTimes| && now == clock
      requires accessTimes[top].id in conns && !conns[accessTimes[top].id].IsIdle(now)
      modifies `accessTimes
      ensures Valid()
      ensures accessTimes == Without(old(accessTimes), top) + [AccessTime(now, old(accessTimes)[top].id)]
    {
      hide Balanced, Conn.Valid;
      ghost var before := Ledger();
      ReenterKeepsBooks(before, 0, top);
      accessTimes := Without(accessTimes, top) + [AccessTime(now, accessTimes[top].id)];
      assert Views() == before.views;
    }

    ghost method AdvanceClock(now: Time)
      requires Valid() && now >= clock
      modifies `clock
      ensures Valid() && OwnsAll() && clock == now
    {
      hide Balanced, Conn.Valid;
      TimePasses(Ledger(), 0, now);
      clock := now;
      assert Views() == old(Views());
    }

    /** The connections that are idle at `now`. */
    ghost function Idle(now: Time): set<ConnId>
      reads `conns, `repr, repr
      requires OwnsAll()
    {
      set id | id in conns && conns[id].IsIdle(now)
    }

    /** One round of the sweep: the oldest entry is fresh, or is handled. */
    method SweepOne(now: Time) returns (done: bool)
      requires Valid() && OwnsAll() && clock == now && TasksAreLive(now)
      modifies `conns, `accessTimes
      ensures Valid() && OwnsAll() && TasksAreLive(now)
      ensures forall id :: id in conns ==> id in old(conns) && conns[id] == old(conns)[id]
      ensures IsSwept(old(accessTimes), old(conns).Keys, old(Idle(now)), accessTimes, conns.Keys, now)
      ensures done ==> forall i :: 0 <= i < |accessTimes| ==> !IsStale(accessTimes[i], now)
      ensures !done ==> StaleCount(accessTimes, now) < old(StaleCount(accessTimes, now))
    {
      hide Sound, StaleCount, Pemi.TasksAreLive, IsSwept;
      SweptNone(accessTimes, conns.Keys, Idle(now), now);
      if accessTimes == [] {
        return true;
      }
      var top := Peek(accessTimes);
      if !IsStale(accessTimes[top], now) {
        return true;
      }
      EntryHasConn(top);
      FewerStale(accessTimes, top, now);
      SweptOne(accessTimes, conns.Keys, Idle(now), top, now);
      var id := accessTimes[top].id;
      if conns[id].IsIdle(now) {
        CloseTop(top);
        assert conns.Keys == old(conns).Keys - {id};
      } else {
        ReenterTop(top, now);
      }
      done := false;
    }

    lemma EntryHasConn(top: nat)
      requires Valid() && OwnsAll() && top < |accessTimes|
      ensures accessTimes[top].id in conns
    {
      hide Balanced, Conn.Valid;
      HeapEntryExists(Ledger(), 0, top);
    }

    /**
     `remove_idle_conns`: removes exactly the idle connections whose heap entry is stale, which
     leaves none idle for two timeouts. A stale entry of another connection is re-inserted at
     `now`; fresh entries stay. Each round leaves fewer stale entries.
     */
    method RemoveIdleConns(now: Time)
      requires Valid() && OwnsAll() && now >= clock && TasksAreLive(now)
      modifies `conns, `accessTimes, `clock
      ensures Valid() && OwnsAll() && clock == now
      ensures conns == old(conns) - old(Doomed(now))
      ensures forall id :: id in conns ==> Since(now, conns[id].lastAccess) < 2.0 * IDLE_TIMEOUT
      ensures forall e :: e in accessTimes ==>
                !IsStale(e, now) && (e in old(accessTimes) || (e.time == now && HasStale(old(accessTimes), e.id, now)))
      ensures forall e :: e in old(accessTimes) && !IsStale(e, now) ==> e in accessTimes
    {
      hide Sound, StaleCount, IsStale, Pemi.TasksAreLive, IsSwept;
      AdvanceClock(now);
      SweepAll(now);
      assert IsSwept(old(accessTimes), old(conns).Keys, old(Idle(now)), accessTimes, conns.Keys, now);
      SweptAll(old(accessTimes), old(conns).Keys, old(Idle(now)), accessTimes, conns.Keys, now);
      SweptEntries(old(accessTimes), old(conns).Keys, old(Idle(now)), accessTimes, conns.Keys, now);
      BoundIdleTime(now);
    }

    method SweepAll(now: Time)
      requires Valid() && OwnsAll() && clock == now && TasksAreLive(now)
      modifies `conns, `accessTimes
      ensures Valid() && OwnsAll() && TasksAreLive(now)
      ensures forall id :: id in conns ==> id in old(conns) && conns[id] == old(conns)[id]
      ensures IsSwept(old(accessTimes), old(conns).Keys, old(Idle(now)), accessTimes, conns.Keys, now)
      ensures forall i :: 0 <= i < |accessTimes| ==> !IsStale(accessTimes[i], now)
    {
      hide Sound, StaleCount, IsStale, Pemi.TasksAreLive, IsSwept;
      ghost var idle := Idle(now);
      SweptNone(accessTimes, conns.Keys, idle, now);
      var done := false;
      while !done
        invariant Valid() && OwnsAll() && TasksAreLive(now)
        invariant forall id :: id in conns ==> id in old(conns) && conns[id] == old(conns)[id]
        invariant IsSwept(old(accessTimes), old(conns).Keys, idle, accessTimes, conns.Keys, now)
        invariant done ==> forall i :: 0 <= i < |accessTimes| ==> !IsStale(accessTimes[i], now)
        decreases !done, StaleCount(accessTimes, now)
      {
        ghost var mid, some, still := accessTimes, conns.Keys, Idle(now);
        done := SweepOne(now);
        SameIdle(mid, some, still, idle, accessTimes, conns.Keys, now);
        SweptThen(old(accessTimes), old(conns).Keys, idle, mid, some, accessTimes, conns.Keys, now);
      }
    }

    lemma BoundIdleTime(now: Time)
      requires Valid() && clock == now
      requires forall i :: 0 <= i < |accessTimes| ==> !IsStale(accessTimes[i], now)
      ensures forall id :: id in conns ==> Since(now, conns[id].lastAccess) < 2.0 * IDLE_TIMEOUT
    {
      forall id | id in conns
        ensures Since(now, conns[id].lastAccess) < 2.0 * IDLE_TIMEOUT
      {
        FreshHeapBoundsIdleTime(Ledger(), 0, id);
      }
    }

    // -------------------------------------------------------------- events

    /** Counts a datagram; it covers one more retransmission. */
    method CountPacket()
      requires Valid()
      modifies `pkts
      ensures Sound(1) && OwnsAll() && pkts == old(pkts) + 1
    {
      hide Balanced, Conn.Valid;
      CountKeepsBooks(Ledger());
      pkts := pkts + 1;
      assert Views() == old(Views());
    }

    /** Counts a datagram and works through its packets. */
    method CountAndParse(buf: Bytes, id: ConnId, now: Time, src: Addr, dst: Addr) returns (r: Result<(), ParseError>)
      requires Valid() && OwnsAll() && now >= clock && id == ConnIdOf(src, dst)
      modifies `pkts, `conns, `accessTimes, `clock, `repr, repr
      ensures pkts == old(pkts) + 1 && retransTasks == old(retransTasks) && resent == old(resent)
      ensures Sound(1) && OwnsAll() && clock <= now && fresh(repr - old(repr))
      ensures Parsed(buf, id, now, src, r)
    {
      hide Consume, Sound, Pemi.StopsAt, Pemi.Doomed, Pemi.Handshaked, Pemi.FromClient, Pemi.Seen, Pemi.Records,
        Pemi.Protected, Pemi.NextProtected, Pemi.Access, Pemi.RegimeAt;
      CountPacket();
      r := QuicConnProcess(buf, id, now, src, dst, 1);
    }

    /** A datagram that is not accepted as QUIC is sent on as it is. */
    method PassThrough(id: ConnId, now: Time, src: Addr, buf: Bytes)
      requires Sound(1) && OwnsAll() && !Handshaked(id) && now >= clock
      modifies `clock, repr
      ensures conns == old(conns) && repr == old(repr) && clock == now && retransTasks == old(retransTasks)
      ensures Valid() && OwnsAll() && FromClient(id, src) == old(FromClient(id, src))
      ensures Records() - {id} == old(Records()) - {id} && Protected(id) == old(Protected(id))
      ensures Access(id) == old(Access(id))
      ensures id in conns ==>
                forall x, h :: Seen(id) == After(old(Seen(id)), FromClient(id, src), false, now, buf,
                                                 old(RegimeAt(id, src, now, x, h)))
    {
      hide Sound, Conn.Valid, PacketQueue.Load, LastNumber, Conn.Protected, Pemi.Records;
      if id in conns {
        ConnIsReady(id, 1);
        conns[id].SendUnparsed(now, src, buf);
        OneConnTouched(id, 1, 0);
        OthersUntouched(id);
        OthersStay(id, now);
      } else {
        GiveUpSpare();
      }
      AdvanceClock(now);
      NoneGone(id);
    }

    /** A datagram of a known connection is sent on or delayed, and delivered to it. */
    method SendAndDeliver(id: ConnId, buf: Bytes, now: Time, src: Addr, dst: Addr, verdict: Verdict) returns (ok: bool)
      requires Sound(1) && OwnsAll() && clock <= now
      requires id == ConnIdOf(src, dst) && id in conns
      modifies `clock, repr
      ensures conns == old(conns) && repr == old(repr) && OwnsAll()
      ensures ok == !(old(StopsAt(id, src)) || verdict.Panics?)
      ensures !ok ==> Sound(1) && StopsAt(id, src) == old(StopsAt(id, src))
      ensures ok ==> Valid() && clock == now
      ensures ok ==> Doomed(now) == old(Doomed(now))
      ensures ok ==> forall k :: k in conns ==>
                Seen(k) == if k != id then old(Seen(k))
                           else After(old(Seen(k)), FromClient(id, src), true, now, buf,
                                      old(RegimeAt(id, src, now, verdict.TooFast?, Handshaked(id))))
      ensures ok ==> forall k :: k in conns ==>
                Protected(k) ==
                  if k == id then old(NextProtected(id, src, now, buf, verdict.TooFast?)) else old(Protected(k))
      ensures ok ==> forall k :: Access(k) == old(Access(k))
    {
      hide Sound, Conn.Valid, Conn.Stops, PacketQueue.Load, HasStale, Conn.View, Conn.Protected, Conn.NextProtected;
      hide After, Arrived, Delivered, Conn.Seen, Conn.BeginAfter;
      SentThenDelivered(Seen(id), FromClient(id, src), now, buf,
                        RegimeAt(id, src, now, verdict.TooFast?, Handshaked(id)));
      OneOfTheEnds(id, src, dst, 1);
      ConnIsReady(id, 1);
      SendOn(id, now, src, buf, 1);
      ok := Deliver(id, now, src, buf, verdict);
      OthersUntouched(id);
    }

    /** A datagram filed under the ID of a connection comes from one of its ends. */
    lemma OneOfTheEnds(id: ConnId, src: Addr, dst: Addr, spare: nat)
      requires Sound(spare) && id in conns && id == ConnIdOf(src, dst)
      ensures src == conns[id].clientAddr || src == conns[id].serverAddr
    {
      hide Sound;
      ConnIsReady(id, spare);
      ConnIdIdentifiesPair(src, dst, conns[id].clientAddr, conns[id].serverAddr);
    }

    /** Collects the losses of a connection just accessed, and sweeps. */
    method CollectAndSweep(id: ConnId, now: Time, protect: bool)
      requires Valid() && OwnsAll() && clock == now && retransTasks == []
      requires id in conns && conns[id].lastAccess == now
      modifies `conns, `accessTimes, `clock, `retransTasks, repr
      ensures repr == old(repr)
      ensures Valid() && OwnsAll() && clock == now && id in conns
      ensures conns == old(conns) - old(Doomed(now))
      ensures forall k :: k in conns && k != id ==> Seen(k) == old(Seen(k))
      ensures forall k :: k in conns ==> Protected(k) == old(Protected(k)) && Access(k) == old(Access(k))
      ensures forall k :: k in conns && k != id ==> NoTaskFor(retransTasks, k)
      ensures HandsOver(id, old(Seen(id)), protect)
    {
      hide Sound, Conn.Valid, HasStale, IsStale, NoTaskFor, Conn.View, Conn.Seen, Conn.Protected, Pemi.TasksAreLive;
      CollectLosses(id, now, protect);
      RemoveIdleConns(now);
    }

    /** Collects the losses of a connection just accessed. */
    method CollectLosses(id: ConnId, now: Time, protect: bool)
      requires Valid() && OwnsAll() && clock == now && retransTasks == []
      requires id in conns && conns[id].lastAccess == now
      modifies `retransTasks, conns[id].toClientQueue`detectedLoss, conns[id].toClientQueue`drained
      ensures Valid() && OwnsAll() && TasksAreLive(now) && Doomed(now) == old(Doomed(now))
      ensures forall k :: k in conns && k != id ==> Seen(k) == old(Seen(k))
      ensures forall k :: k in conns ==> Protected(k) == old(Protected(k)) && Access(k) == old(Access(k))
      ensures forall k :: k in conns && k != id ==> NoTaskFor(retransTasks, k)
      ensures HandsOver(id, old(Seen(id)), protect)
    {
      hide Sound, Conn.Valid, HasStale, NoTaskFor, TasksKept, Conn.View, Conn.Protected, Pemi.HandsOver;
      NoTasks(conns.Keys);
      ConnIsReady(id, 0);
      CollectTask(id, protect);
      OthersUntouched(id);
      KeptFor([], retransTasks, id, conns.Keys);
    }

    /** A datagram of a known connection: sent on or delayed, delivered, its losses collected. */
    method Accept(id: ConnId, buf: Bytes, now: Time, src: Addr, dst: Addr, verdict: Verdict, protect: bool)
      returns (ok: bool)
      requires Sound(1) && OwnsAll() && clock <= now && retransTasks == []
      requires id == ConnIdOf(src, dst) && id in conns && conns[id].lastAccess == now
      modifies `conns, `accessTimes, `clock, `retransTasks, repr
      ensures repr == old(repr)
      ensures OwnsAll() && ok == !(old(StopsAt(id, src)) || verdict.Panics?)
      ensures !ok ==> Sound(1) && conns == old(conns) && StopsAt(id, src) == old(StopsAt(id, src))
      ensures ok ==> Valid() && clock == now && id in conns
      ensures ok ==> conns == old(conns) - old(Doomed(now))
      ensures ok ==> Records() - {id} == old(Records()) - old(Doomed(now)) - {id}
      ensures ok ==> Protected(id) == old(NextProtected(id, src, now, buf, verdict.TooFast?))
      ensures ok ==> FromClient(id, src) == old(FromClient(id, src)) && conns[id].lastAccess == now
      ensures ok ==> forall k :: k in conns && k != id ==> NoTaskFor(retransTasks, k)
      ensures ok ==> HandsOver(id, After(old(Seen(id)), FromClient(id, src), true, now, buf,
                                         old(RegimeAt(id, src, now, verdict.TooFast?, Handshaked(id)))), protect)
    {
      hide Sound, Pemi.StopsAt, Pemi.Doomed, After, Conn.Seen, Pemi.HandsOver, Pemi.Protected, Pemi.NextProtected,
        Pemi.Seen, Pemi.Records, NoTaskFor;
      assert Access(id) == Some(now);
      ok := SendAndDeliver(id, buf, now, src, dst, verdict);
      if ok {
        assert Access(id) == Some(now);
        CollectAndSweep(id, now, protect);
        RecordsElsewhere(id, old(Doomed(now)));
      }
    }

    /** What becomes of a datagram, as its pieces and the state of its connection have it. */
    ghost function OutcomeOf(buf: Bytes, id: ConnId, src: Addr, verdict: Verdict): Outcome
      reads `conns, `repr, repr
      requires OwnsAll()
    {
      match Consume(buf, id in conns, Handshaked(id), FromClient(id, src)).error
      case None => if StopsAt(id, src) || verdict.Panics? then Stopped else Accepted
      case Some(Panicked) => Stopped
      case Some(TooShort) => Failed(TooShort)
      case Some(e) => PassedOn
    }

    /**
     The connections after a datagram of connection `id`: if it is accepted, the idle ones are swept and
     its own stays; if not, none goes. Its own may be new, and then the sender is its client.
     */
    twostate predicate ConnsAfter(o: Outcome, buf: Bytes, id: ConnId, src: Addr, now: Time)
      reads `conns
      requires old(OwnsAll())
    {
      && (o.Accepted? ==> id in conns && conns - {id} == old(conns) - old(Doomed(now)) - {id})
      && (o.PassedOn? ==>
            var p := Consume(buf, id in old(conns), old(Handshaked(id)), old(FromClient(id, src)));
            (id in conns <==> p.known) && conns - {id} == old(conns) - {id})
      && (id in old(conns) ==> id in conns && conns[id] == old(conns)[id])
      && FromClient(id, src) == old(FromClient(id, src))
    }

    /**
     Their histories: only its own connection gets the datagram and, if it is accepted, hands over its
     losses.
     */
    twostate predicate HistoriesAfter(
      o: Outcome, buf: Bytes, id: ConnId, src: Addr, now: Time, verdict: Verdict, protect: bool)
      reads `conns, `repr, `retransTasks, repr
      requires OwnsAll() && old(OwnsAll())
    {
      && (o.Accepted? ==> Records() - {id} == old(Records()) - old(Doomed(now)) - {id})
      && (o.PassedOn? ==> Records() - {id} == old(Records()) - {id})
      && (o.Accepted? ==> Protected(id) == old(NextProtected(id, src, now, buf, verdict.TooFast?)))
      && (o.PassedOn? ==> Protected(id) == old(Protected(id)))
      && (id in conns ==> conns[id].lastAccess == now)
      && (o.Accepted? ==> forall k :: k in conns && k != id ==> NoTaskFor(retransTasks, k))
      && (o.Accepted? ==> id in conns && HandsOver(id, old(SeenAfter(buf, id, src, now, verdict, true)), protect))
      && (o.PassedOn? ==>
            retransTasks == [] && (id in conns ==> Seen(id) == old(SeenAfter(buf, id, src, now, verdict, false))))
    }

    /** What connection `id` will have seen after a datagram, accepted or passed on. */
    ghost function SeenAfter(buf: Bytes, id: ConnId, src: Addr, now: Time, verdict: Verdict, accepted: bool): History
      reads `conns, `repr, repr
      requires OwnsAll()
    {
      var p := Consume(buf, id in conns, Handshaked(id), FromClient(id, src));
      After(Seen(id), FromClient(id, src), accepted, now, buf, RegimeAt(id, src, now, verdict.TooFast?, p.handshaked))
    }

    twostate lemma HeardMore(
      new buf: Bytes, new id: ConnId, new src: Addr, new now: Time, new verdict: Verdict, new accepted: bool)
      requires old(OwnsAll())
      ensures var h := old(SeenAfter(buf, id, src, now, verdict, accepted));
              && h.arrived == old(Stream(id)) + (if old(FromClient(id, src)) then [buf] else [])
              && h.handed == old(Seen(id)).handed
    {
      hide Consume, After;
      var p := Consume(buf, id in old(conns), old(Handshaked(id)), old(FromClient(id, src)));
      AfterArrivals(old(Seen(id)), old(FromClient(id, src)), accepted, now, buf,
                    old(RegimeAt(id, src, now, verdict.TooFast?, p.handshaked)));
    }

    /** Counts and parses a datagram, then passes it on or has its connection deal with it. */
    method Dispatch(id: ConnId, buf: Bytes, now: Time, src: Addr, dst: Addr, verdict: Verdict, protect: bool)
      returns (o: Outcome)
      requires Valid() && OwnsAll() && now >= clock && buf != [] && retransTasks == [] && id == ConnIdOf(src, dst)
      modifies `pkts, `conns, `accessTimes, `clock, `repr, `retransTasks, repr
      ensures OwnsAll() && o == old(OutcomeOf(buf, id, src, verdict)) && pkts == old(pkts) + 1
      ensures o.Accepted? || o.PassedOn? ==> Valid() && clock == now && fresh(repr - old(repr))
      ensures o.Accepted? || o.PassedOn? ==>
                ConnsAfter(o, buf, id, src, now) && HistoriesAfter(o, buf, id, src, now, verdict, protect)
      ensures o.Failed? || o.Stopped? ==> Sound(1)
      ensures o.Failed? || o.Stopped? ==>
                || (Unreadable(buf, id in old(conns), FromClient(id, src)) && Stream(id) == old(Stream(id)))
                || verdict.Panics? || StopsAt(id, src)
    {
      hide Sound, Consume, Conn.Seen, ConnIdOf, Pemi.StopsAt, Pemi.Doomed, Pemi.HandsOver, After, Unreadable;
      EndsProgram(buf, id in conns, Handshaked(id), FromClient(id, src));
      OutcomeByError(buf, id, src, verdict);
      ghost var due, stops := OutcomeOf(buf, id, src, verdict), StopsAt(id, src);
      ghost var error := Consume(buf, id in conns, Handshaked(id), FromClient(id, src)).error;
      hide Pemi.OutcomeOf, Pemi.Seen, Pemi.FromClient, Pemi.Handshaked, Pemi.OwnsAll, Pemi.Protected,
        Pemi.NextProtected, Pemi.Records, Pemi.RegimeAt, Pemi.ConnsAfter, Pemi.HistoriesAfter;
      var res := CountAndParse(buf, id, now, src, dst);
      assert res == if error.Some? then Err(error.value) else Ok(());
      if res == Err(InvalidState) || res == Err(MayNotQuic) {
        assert due == PassedOn && (id in conns ==> Access(id) == Some(now));
        PassThrough(id, now, src, buf);
        OnlyPassedOn(buf, id, src, now, verdict, protect);
        o := PassedOn;
      } else if res.Err? {
        o := if res.error == Panicked then Stopped else Failed(res.error);
      } else {
        assert due == if stops || verdict.Panics? then Stopped else Accepted;
        ghost var mid, records, doomed := conns, Records(), Doomed(now);
        var ok := Accept(id, buf, now, src, dst, verdict, protect);
        if ok {
          DealtWith(buf, id, src, now, verdict, protect, mid, records, doomed);
        }
        o := if ok then Accepted else Stopped;
      }
    }

    /** The connections after a datagram that is passed on. */
    twostate lemma OnlyPassedOn(new buf: Bytes, new id: ConnId, new src: Addr, new now: Time, new verdict: Verdict,
                                new protect: bool)
      requires OwnsAll() && old(OwnsAll()) && FromClient(id, src) == old(FromClient(id, src))
      requires conns - {id} == old(conns) - {id} && (id in old(conns) ==> id in conns && conns[id] == old(conns)[id])
      requires id in conns <==> Consume(buf, id in old(conns), old(Handshaked(id)), old(FromClient(id, src))).known
      requires Records() - {id} == old(Records()) - {id} && Protected(id) == old(Protected(id)) && retransTasks == []
      requires id in conns ==> Access(id) == Some(now) && Seen(id) == old(SeenAfter(buf, id, src, now, verdict, false))
      ensures ConnsAfter(PassedOn, buf, id, src, now)
      ensures HistoriesAfter(PassedOn, buf, id, src, now, verdict, protect)
    {
      hide Consume, Pemi.Records, Pemi.Seen, Pemi.SeenAfter, Pemi.Protected, Pemi.FromClient, Pemi.Doomed;
    }

    /** The connections after one that is accepted; `mid`, `records` and `doomed` are those once it is parsed. */
    twostate lemma DealtWith(new buf: Bytes, new id: ConnId, new src: Addr, new now: Time, new verdict: Verdict,
                             new protect: bool, new mid: map<ConnId, Conn>,
                             new records: map<ConnId, (History, Protection, Time)>, new doomed: set<ConnId>)
      requires OwnsAll() && old(OwnsAll()) && id in conns && FromClient(id, src) == old(FromClient(id, src))
      requires conns == mid - doomed && mid - {id} == old(conns) - {id} && doomed - {id} == old(Doomed(now)) - {id}
      requires id in old(conns) ==> id in mid && mid[id] == old(conns)[id]
      requires Records() - {id} == records - doomed - {id} && records - {id} == old(Records()) - {id}
      requires Protected(id) == old(NextProtected(id, src, now, buf, verdict.TooFast?)) && conns[id].lastAccess == now
      requires forall k :: k in conns && k != id ==> NoTaskFor(retransTasks, k)
      requires HandsOver(id, old(SeenAfter(buf, id, src, now, verdict, true)), protect)
      ensures ConnsAfter(Accepted, buf, id, src, now)
      ensures HistoriesAfter(Accepted, buf, id, src, now, verdict, protect)
    {
      hide Consume, Pemi.Records, Pemi.Seen, Pemi.SeenAfter, Pemi.Protected, Pemi.FromClient, Pemi.Doomed,
        Pemi.HandsOver, Pemi.NextProtected, NoTaskFor;
      SweptMap(old(conns), mid, old(Doomed(now)), doomed, id);
      SweptMap(old(Records()), records, old(Doomed(now)), doomed, id);
    }

    lemma OutcomeByError(buf: Bytes, id: ConnId, src: Addr, verdict: Verdict)
      requires OwnsAll()
      ensures var e := Consume(buf, id in conns, Handshaked(id), FromClient(id, src)).error;
              var o := OutcomeOf(buf, id, src, verdict);
              && (e == None ==> o == if StopsAt(id, src) || verdict.Panics? then Stopped else Accepted)
              && (e == Some(Panicked) ==> o == Stopped) && (e == Some(TooShort) ==> o == Failed(TooShort))
              && (e == Some(InvalidState) || e == Some(MayNotQuic) ==> o == PassedOn)
    {
      hide Consume, Pemi.StopsAt, Pemi.Handshaked, Pemi.FromClient;
    }

    lemma EndsProgram(buf: Bytes, known: bool, handshaked: bool, fromClient: bool)
      requires handshaked ==> known
      ensures Consume(buf, known, handshaked, fromClient).error in {Some(TooShort), Some(Panicked)} ==>
                Unreadable(buf, known, fromClient)
    {
      if handshaked {
        HandshakedAcceptsAll(buf, fromClient);
      }
    }

    /**
     `process_packet`. `verdict` is the congestion controller's, `protect` whether
     traffic to the client dominates. All tasks of the previous event have been drained.
     */
    method ProcessPacket(buf: Bytes, now: Time, src: Addr, dst: Addr, verdict: Verdict, protect: bool)
      returns (o: Outcome)
      requires AtRest() && now >= clock && buf != []
      modifies this, repr
      ensures Valid() && OwnsAll() && o == old(OutcomeOf(buf, ConnIdOf(src, dst), src, verdict))
      ensures pkts == old(pkts) + 1 && retransPkts == old(retransPkts) && resent == old(resent)
      ensures o.Accepted? || o.PassedOn? ==>
                && clock == now && fresh(repr - old(repr)) && ConnsAfter(o, buf, ConnIdOf(src, dst), src, now)
                && HistoriesAfter(o, buf, ConnIdOf(src, dst), src, now, verdict, protect) && Settled()
      ensures o.Failed? || o.Stopped? ==> Blames(Arrival(buf, src, dst, verdict, protect))
    {
      hide Sound, Consume, After, ConnIdOf, Pemi.StopsAt, Pemi.Doomed, Unreadable, Pemi.HandsOver, Pemi.OutcomeOf,
        Pemi.Protected, Pemi.NextProtected, Pemi.Records, Pemi.FromClient, Pemi.Handshaked, Pemi.SeenAfter,
        Pemi.ConnsAfter, Pemi.HistoriesAfter;
      var id := ConnIdOf(src, dst);
      o := Dispatch(id, buf, now, src, dst, verdict, protect);
      if o.Failed? || o.Stopped? {
        GiveUpSpare();
      } else {
        SettledAgain(o, buf, id, src, now, verdict, protect);
      }
    }

    /** A datagram that was dealt with leaves nothing pending. */
    twostate lemma SettledAgain(
      new o: Outcome, new buf: Bytes, new id: ConnId, new src: Addr, new now: Time, new verdict: Verdict,
      new protect: bool)
      requires OwnsAll() && old(OwnsAll()) && old(Settled()) && (o.Accepted? || o.PassedOn?)
      requires ConnsAfter(o, buf, id, src, now) && HistoriesAfter(o, buf, id, src, now, verdict, protect)
      ensures Settled()
    {
      hide Consume, Pemi.Doomed, NoTaskFor, Pemi.NextProtected, Pemi.SeenAfter, Pemi.Records;
      HeardMore(buf, id, src, now, verdict, o.Accepted?);
      forall k | k in conns
        ensures Stream(k) != [] && Pending(k) == []
      {
        assert k in old(conns) ==> old(Stream(k)) != [] && old(Pending(k)) == [];
        if k != id {
          UnchangedRecord(o, k, id, now);
        } else if o.Accepted? {
          NothingPending(k);
        }
      }
    }

    twostate lemma UnchangedRecord(new o: Outcome, new k: ConnId, new id: ConnId, new now: Time)
      requires OwnsAll() && old(OwnsAll()) && (o.Accepted? || o.PassedOn?) && k in conns && k != id
      requires o.Accepted? ==> Records() - {id} == old(Records()) - old(Doomed(now)) - {id}
      requires o.PassedOn? ==> Records() - {id} == old(Records()) - {id}
      ensures k in old(conns) && SameRecord(k)
    {
      hide Pemi.SameRecord, Pemi.Records, Pemi.Doomed;
      if o.Accepted? {
        RecordOf(k, id, old(Doomed(now)));
      } else {
        assert old(Records()) - {} == old(Records());
        RecordOf(k, id, {});
      }
    }

    lemma NothingPending(k: ConnId)
      requires OwnsAll() && k in conns && conns[k].toClientQueue.detectedLoss == []
      ensures Pending(k) == []
    {
    }

    lemma GiveUpSpare()
      requires Sound(1)
      ensures Valid()
    {
      hide Balanced;
      SpareIsOptional(Ledger(), 1);
    }

    /** Some queue to a client is longer than the original bears. */
    ghost predicate QueueFull()
      reads `conns, `repr, repr
      requires OwnsAll()
    {
      exists k :: k in conns && |conns[k].toClientQueue.packets| > MAX_QUEUED
    }

    /**
     Why the program stopped at event `e`, as the state it stopped in shows. The connection of a
     datagram was known before it if it has heard from its client.
     */
    ghost predicate Blames(e: Event)
      reads `conns, `repr, repr
      requires OwnsAll()
    {
      match e
      case Arrival(buf, src, dst, verdict, _) =>
        var id := ConnIdOf(src, dst);
        Unreadable(buf, Stream(id) != [], FromClient(id, src)) || verdict.Panics? || StopsAt(id, src) || QueueFull()
      case Timer(_, panics) => panics || QueueFull()
      case Calibration(_) => false
    }

    // -------------------------------------------------------------- timers

    /** How connection `id` will protect its client after a timer at `now`. */
    ghost function AfterTimer(id: ConnId, now: Time): Protection
      reads `conns, `repr, repr
      requires OwnsAll()
    {
      if id in conns then conns[id].AfterTimerAt(now) else UNPROTECTED
    }

    /** How connection `id` will protect its client after a calibration at `now`. */
    ghost function AfterCalibration(id: ConnId, now: Time, sample: Duration): Protection
      reads `conns, `repr, repr
      requires OwnsAll()
    {
      if id in conns then conns[id].AfterCalibrationAt(now, sample) else UNPROTECTED
    }

    /** Connection `k` and its queue to the client are as they were. */
    twostate predicate Untouched(k: ConnId)
      reads `conns, `repr, repr
      requires conns == old(conns) && OwnsAll() && old(OwnsAll()) && k in conns
    {
      unchanged(conns[k]) && unchanged(conns[k].toClientQueue)
    }

    twostate lemma OthersUntouched(id: ConnId)
      requires OwnsAll() && old(OwnsAll()) && conns == old(conns) && repr == old(repr) && id in conns
      requires forall k :: k in conns && k != id ==> Apart(conns[k], conns[id])
      requires forall o :: o in repr && o !in conns[id].Repr() ==> unchanged(o)
      ensures forall k :: k in conns && k != id ==> Untouched(k)
    {
      forall k | k in conns && k != id
        ensures Untouched(k)
      {
        assert Apart(conns[k], conns[id]);
      }
    }

    /** The timer of one connection: overdue flowlets are completed, their losses collected. */
    method TimeoutOne(id: ConnId, now: Time, protect: bool)
      requires Valid() && OwnsAll() && id in conns && clock == now && NoTaskFor(retransTasks, id)
      modifies `retransTasks, conns[id].Repr()
      ensures Valid() && OwnsAll() && conns == old(conns) && repr == old(repr)
      ensures Protected(id) == old(AfterTimer(id, now)) && HandsOver(id, old(Seen(id)), protect)
      ensures forall k :: k in conns ==> Access(k) == old(Access(k))
      ensures forall k :: k in conns && k != id ==> Seen(k) == old(Seen(k)) && Protected(k) == old(Protected(k))
      ensures forall k :: k in conns && k != id ==> AfterTimer(k, now) == old(AfterTimer(k, now))
      ensures forall k :: k in conns && k != id && NoTaskFor(old(retransTasks), k) ==> NoTaskFor(retransTasks, k)
      ensures forall k, h, b :: k in conns && k != id && old(HandsOver(k, h, b)) ==> HandsOver(k, h, b)
    {
      hide Sound, Conn.Valid, PacketQueue.Load, PacketQueue.EndTimeout, NoTaskFor, TasksKept, Pemi.HandsOver,
        Conn.Protected, Conn.AfterTimerAt, Expired;
      ConnIsReady(id, 0);
      var left := conns[id].Timeout(now);
      if left == Some(0.0) {
        ExpireOne(id, now);
      } else {
        ghost var c := conns[id];
        NoneExpired(c.toClientQueue.flowlets, left, c.clientRtt, c.toClientQueue.EndTimeout(c.clientRtt), now);
        NothingDue(c, now);
      }
      CollectTask(id, protect);
      OthersUntouched(id);
      OthersHandOver(id);
      OthersStay(id, now);
      KeptFor(old(retransTasks), retransTasks, id, conns.Keys);
    }

    /** What other connections have handed over is not affected. */
    twostate lemma OthersHandOver(id: ConnId)
      requires conns == old(conns) && OwnsAll() && old(OwnsAll()) && TasksKept(old(retransTasks), retransTasks, id)
      requires forall k :: k in conns && k != id ==> Untouched(k)
      ensures forall k, h, b :: k in conns && k != id && old(HandsOver(k, h, b)) ==> HandsOver(k, h, b)
    {
      hide NoTaskFor, TasksKept, Conn.Seen;
      KeptFor(old(retransTasks), retransTasks, id, conns.Keys);
      forall k, h, b | k in conns && k != id && old(HandsOver(k, h, b))
        ensures HandsOver(k, h, b)
      {
        assert Untouched(k);
      }
    }

    method ExpireOne(id: ConnId, now: Time)
      requires Valid() && OwnsAll() && id in conns && clock == now && conns[id].clientRtt != 0.0
      modifies conns[id].Repr()
      ensures Valid() && OwnsAll() && conns == old(conns) && repr == old(repr)
      ensures clock == old(clock) && retransTasks == old(retransTasks)
      ensures Protected(id) == old(AfterTimer(id, now)) && Seen(id) == old(Seen(id)) && Access(id) == old(Access(id))
    {
      hide Sound, Conn.Valid, PacketQueue.Load, LastNumber, Conn.Protected, Conn.AfterTimerAt, PacketQueue.TimedOut;
      ConnIsReady(id, 0);
      ghost var _, _ := conns[id].OnTimeout(now);
      OneConnTouched(id, 0, 0);
    }

    /**
     `process_timeout`; `protect` names the connections with dominant traffic to the client. Not `ok`
     when a congestion controller panics.
     */
    method ProcessTimeout(now: Time, protect: set<ConnId>, panics: bool) returns (ok: bool)
      requires Valid() && OwnsAll() && now >= clock && retransTasks == []
      modifies `conns, `accessTimes, `clock, `retransTasks, repr
      ensures ok == !panics && Valid() && OwnsAll() && clock == now && repr == old(repr)
      ensures conns == old(conns) - old(Doomed(now))
      ensures forall k :: k in conns ==> Access(k) == old(Access(k))
      ensures ok ==> forall k :: k in conns ==>
                Protected(k) == old(AfterTimer(k, now)) && HandsOver(k, old(Seen(k)), k in protect)
    {
      hide Sound, Conn.Seen, Pemi.HandsOver, Conn.Protected, Conn.AfterTimerAt;
      RemoveIdleConns(now);
      if panics {
        return false;
      }
      TimeoutAll(now, protect);
      ok := true;
    }

    method TimeoutAll(now: Time, protect: set<ConnId>)
      requires Valid() && OwnsAll() && clock == now && retransTasks == []
      modifies `retransTasks, repr
      ensures Valid() && OwnsAll() && clock == now && conns == old(conns) && repr == old(repr)
      ensures forall k :: k in conns ==> Access(k) == old(Access(k))
      ensures forall k :: k in conns ==>
                Protected(k) == old(AfterTimer(k, now)) && HandsOver(k, old(Seen(k)), k in protect)
    {
      hide Sound, NoTaskFor, Pemi.HandsOver, Pemi.Seen, Pemi.Protected, Pemi.AfterTimer, Pemi.Access, Pemi.OwnsAll;
      var todo := conns.Keys;
      NoTasks(todo);
      while todo != {}
        invariant Valid() && OwnsAll() && clock == now && conns == old(conns) && repr == old(repr) && todo <= conns.Keys
        invariant forall k :: k in conns ==> Access(k) == old(Access(k))
        invariant forall k :: k in todo ==> NoTaskFor(retransTasks, k)
        invariant forall k :: k in todo ==> Seen(k) == old(Seen(k)) && AfterTimer(k, now) == old(AfterTimer(k, now))
        invariant forall k :: k in conns && k !in todo ==>
                    Protected(k) == old(AfterTimer(k, now)) && HandsOver(k, old(Seen(k)), k in protect)
        decreases |todo|
      {
        var id :| id in todo;
        Owned(id);
        TimeoutOne(id, now, id in protect);
        todo := todo - {id};
      }
    }

    lemma Owned(id: ConnId)
      requires OwnsAll() && id in conns
      ensures conns[id].Repr() <= repr && this !in repr
    {
    }

    /** What holds of connections that a step did not touch. */
    twostate lemma OthersStay(id: ConnId, new now: Time)
      requires conns == old(conns) && OwnsAll() && old(OwnsAll()) && forall k :: k in conns && k != id ==> Untouched(k)
      ensures forall k :: k in conns && k != id ==> SameRecord(k)
      ensures forall k :: k in conns && k != id ==> AfterTimer(k, now) == old(AfterTimer(k, now))
      ensures forall k, x :: k in conns && k != id ==> AfterCalibration(k, now, x) == old(AfterCalibration(k, now, x))
    {
      hide Conn.Seen, Conn.Protected, Conn.AfterTimerAt, Conn.AfterCalibrationAt;
      forall k | k in conns && k != id
        ensures SameRecord(k)
        ensures AfterTimer(k, now) == old(AfterTimer(k, now))
        ensures forall x :: AfterCalibration(k, now, x) == old(AfterCalibration(k, now, x))
      {
        assert Untouched(k);
      }
    }

    /** `rtt_calibration` of all connections; no history changes. */
    method RttCalibration(now: Time, sample: Duration)
      requires Valid() && OwnsAll() && now >= clock
      modifies `clock, repr
      ensures Valid() && OwnsAll() && clock == now && repr == old(repr) && conns == old(conns)
      ensures forall k :: k in conns ==>
                && Protected(k) == old(AfterCalibration(k, now, sample))
                && Seen(k) == old(Seen(k)) && Access(k) == old(Access(k))
    {
      hide Sound, Pemi.Seen, Pemi.Protected, Pemi.AfterCalibration, Pemi.Access;
      AdvanceClock(now);
      CalibrateAll(now, sample);
    }

    method CalibrateAll(now: Time, sample: Duration)
      requires Valid() && OwnsAll() && clock == now
      modifies repr
      ensures Valid() && OwnsAll() && conns == old(conns) && repr == old(repr)
      ensures forall k :: k in conns ==>
                && Protected(k) == old(AfterCalibration(k, now, sample))
                && Seen(k) == old(Seen(k)) && Access(k) == old(Access(k))
    {
      hide Sound, Pemi.Seen, Pemi.Protected, Pemi.AfterCalibration, Pemi.Access, Pemi.OwnsAll;
      var todo := conns.Keys;
      while todo != {}
        invariant Valid() && OwnsAll() && conns == old(conns) && repr == old(repr) && todo <= conns.Keys
        invariant forall k :: k in conns ==> Seen(k) == old(Seen(k)) && Access(k) == old(Access(k))
        invariant forall k :: k in todo ==> AfterCalibration(k, now, sample) == old(AfterCalibration(k, now, sample))
        invariant forall k :: k in conns && k !in todo ==> Protected(k) == old(AfterCalibration(k, now, sample))
        decreases |todo|
      {
        var id :| id in todo;
        Owned(id);
        CalibrateOne(id, now, sample);
        todo := todo - {id};
      }
    }

    method CalibrateOne(id: ConnId, now: Time, sample: Duration)
      requires Valid() && OwnsAll() && id in conns && clock == now
      modifies conns[id].Repr()
      ensures Valid() && OwnsAll() && conns == old(conns) && repr == old(repr)
      ensures Protected(id) == old(AfterCalibration(id, now, sample)) && Seen(id) == old(Seen(id))
      ensures Access(id) == old(Access(id)) && forall k :: k in conns && k != id ==> SameRecord(k)
      ensures forall k :: k in conns && k != id ==>
                AfterCalibration(k, now, sample) == old(AfterCalibration(k, now, sample))
    {
      hide Sound, Conn.Valid, PacketQueue.Load, Conn.Deviates, LastNumber, Conn.Protected, Conn.AfterCalibrationAt;
      ConnIsReady(id, 0);
      conns[id].RttCalibration(now, sample);
      OthersUntouched(id);
      OthersStay(id, now);
      OneConnTouched(id, 0, 0);
    }

    // -------------------------------------------------------------- retransmission

    /** `match_retrans_limit` together with the early exemption. */
    predicate Limited()
      reads `retransPkts, `pkts
    {
      10 * retransPkts > pkts && pkts > UNLIMITED_PKTS
    }

    /** How long the queues to the clients are. */
    ghost function Sizes(): map<ConnId, nat>
      reads `conns, `repr, repr
      requires OwnsAll()
    {
      map k | k in conns :: |conns[k].toClientQueue.packets|
    }

    /** Sends one packet of a task again and records the copy; the program stops if the queue is full. */
    method Retransmit(d: Datagram, id: ConnId, now: Time, ghost left: nat) returns (ok: bool)
      requires Sound(left + 1) && OwnsAll() && id in conns && now >= clock && !Limited()
      requires conns[id].clientAddr != conns[id].serverAddr && NoTaskFor(retransTasks, id)
      requires CanResend(conns[id].View(), [d])
      modifies `resent, `retransPkts, `clock, At(id)`resent, At(id)`clock, conns[id].toClientQueue
      ensures old(clock) <= clock
      ensures conns[id].Losses() == old(conns[id].Losses())
      ensures Sound(left) && OwnsAll() && retransPkts == old(retransPkts) + 1 && clock <= now
      ensures resent == old(resent) + [d] && conns[id].resent == old(conns[id].resent) + [d]
      ensures ok <==> |old(conns[id].toClientQueue.packets)| <= MAX_QUEUED
      ensures !ok ==> QueueFull()
      ensures ok ==> |conns[id].toClientQueue.packets| == |old(conns[id].toClientQueue.packets)| + 1
      ensures ok ==> AfterResend(conns[id].View(), old(conns[id].View()), d.number)
    {
      hide Sound, Conn.View, NoTaskFor, CanResend;
      CountResend(d, id, left);
      if |conns[id].toClientQueue.packets| > MAX_QUEUED {
        return false;
      }
      RecordCopy(id, now, left);
      ok := true;
    }

    /** Sends a packet and counts it. */
    method CountResend(d: Datagram, id: ConnId, ghost left: nat)
      requires Sound(left + 1) && OwnsAll() && id in conns && !Limited()
      requires NoTaskFor(retransTasks, id) && CanResend(conns[id].View(), [d])
      modifies `resent, `retransPkts, At(id)`resent
      ensures Sound(left) && retransPkts == old(retransPkts) + 1
      ensures resent == old(resent) + [d] && conns[id].resent == old(conns[id].resent) + [d]
      ensures conns[id].View() == old(conns[id].View()).(resent := d.number)
    {
      hide Sound, Conn.Valid, NoTaskFor, CanResend, Conn.View;
      ConnIsReady(id, left + 1);
      conns[id].NoteResent(d);
      resent := resent + [d];
      retransPkts := retransPkts + 1;
      OneResent(id, left, d.number);
    }

    /** A step that counts one packet of connection `id` as sent again keeps everything in order. */
    twostate lemma OneResent(id: ConnId, new left: nat, new number: nat)
      requires old(Sound(left + 1)) && conns == old(conns) && repr == old(repr) && id in conns && !old(Limited())
      requires unchanged(`accessTimes) && unchanged(`retransTasks) && unchanged(`pkts) && unchanged(`clock)
      requires retransPkts == old(retransPkts) + 1 && |resent| == |old(resent)| + 1 && NoTaskFor(retransTasks, id)
      requires forall o :: o in repr && o !in conns[id].Repr() ==> unchanged(o)
      requires conns[id].Valid() && conns[id].View() == old(conns[id].View()).(resent := number)
      requires conns[id].HasFactors(intervalFactor, endFactor)
      ensures Sound(left)
    {
      hide Balanced, Conn.Valid, Conn.View, NoTaskFor;
      OneConnChanged(id);
      RetransmitKeepsBooks(old(Ledger()), id, number, left);
    }

    /** Records the copy just sent in the queue of its connection. */
    method RecordCopy(id: ConnId, now: Time, ghost left: nat)
      requires Sound(left) && OwnsAll() && id in conns && now >= clock
      requires conns[id].clientAddr != conns[id].serverAddr && |conns[id].toClientQueue.packets| <= MAX_QUEUED
      modifies `clock, At(id)`clock, conns[id].toClientQueue
      ensures old(clock) <= clock
      ensures conns[id].Losses() == old(conns[id].Losses())
      ensures Sound(left) && OwnsAll() && clock == now
      ensures |conns[id].toClientQueue.packets| == |old(conns[id].toClientQueue.packets)| + 1
      ensures Succeeds(conns[id].View(), old(conns[id].View()))
    {
      hide Sound, Conn.Valid, PacketQueue.Load, LastNumber;
      ConnIsReady(id, left);
      conns[id].RecordRetransPacket(now);
      clock := now;
      OneConnTouched(id, left, left);
    }

    /**
     `process_retrans_task`: as many packets as the limit lets through are sent again, once each
     and in order, and the rest is dropped. Not `ok` when the queue overflows on the way.
     */
    method ProcessRetransTask(task: Task, ticks: nat -> Time, start: nat) returns (ok: bool, next: nat, ghost sent: nat)
      requires Sound(|task.queue|) && OwnsAll() && TaskId(task) in conns && TaskOk(Ledger(), task)
      requires NoTaskFor(retransTasks, TaskId(task)) && Ticking(ticks) && clock <= ticks(start)
      modifies `resent, `retransPkts, `clock,
        At(TaskId(task))`resent, At(TaskId(task))`clock, conns[TaskId(task)].toClientQueue
      ensures old(clock) <= clock
      ensures Valid() && OwnsAll() && start <= next && clock <= ticks(next)
      ensures sent <= |task.queue| && retransPkts == old(retransPkts) + sent
      ensures resent == old(resent) + task.queue[..sent]
      ensures conns[TaskId(task)].resent == old(conns[TaskId(task)].resent) + task.queue[..sent]
      ensures var n := Quota(old(retransPkts), pkts, |task.queue|); var size := old(Sizes())[TaskId(task)];
              && (ok <==> n == 0 || size + n <= MAX_QUEUED + 1)
              && (ok ==> sent == n && Sizes() == old(Sizes())[TaskId(task) := size + n])
      ensures !ok ==> QueueFull()
      ensures forall k :: Standing(k) == old(Standing(k))
    {
      hide Sound, Conn.Valid, Conn.View, NoTaskFor, CanResend, TaskOk, TaskId, Ticking, Quota, Pemi.Ledger, Pemi.Sizes,
        Pemi.Standing, Pemi.QueueFull;
      var id := TaskId(task);
      TaskHasConn(task);
      ConnIsReady(id, |task.queue|);
      ok, next, sent := SendAgain(task.queue, id, ticks, start);
      OnlyOneResent(id);
    }

    /** The loop of `process_retrans_task` over the packets of connection `id`. */
    method SendAgain(losses: seq<Datagram>, id: ConnId, ticks: nat -> Time, start: nat)
      returns (ok: bool, next: nat, ghost sent: nat)
      requires Sound(|losses|) && OwnsAll() && id in conns && NoTaskFor(retransTasks, id)
      requires conns[id].clientAddr != conns[id].serverAddr && CanResend(conns[id].View(), losses)
      requires Ticking(ticks) && clock <= ticks(start)
      modifies `resent, `retransPkts, `clock, At(id)`resent, At(id)`clock, conns[id].toClientQueue
      ensures old(clock) <= clock
      ensures conns[id].Losses() == old(conns[id].Losses())
      ensures Valid() && OwnsAll() && start <= next && clock <= ticks(next)
      ensures sent <= |losses| && resent == old(resent) + losses[..sent] && retransPkts == old(retransPkts) + sent
      ensures conns[id].resent == old(conns[id].resent) + losses[..sent]
      ensures var n := Quota(old(retransPkts), pkts, |losses|); var size := |old(conns[id].toClientQueue.packets)|;
              && (ok <==> n == 0 || size + n <= MAX_QUEUED + 1)
              && (ok ==> sent == n && |conns[id].toClientQueue.packets| == size + n)
      ensures !ok ==> QueueFull()
    {
      hide Sound, NoTaskFor, CanResend, Conn.View, Quota, Ticking, Pemi.QueueFull, Pemi.OwnsAll;
      var queue := losses;
      ghost var size, all := |conns[id].toClientQueue.packets|, Quota(retransPkts, pkts, |losses|);
      next, sent := start, 0;
      while queue != []
        invariant Sound(|queue|) && OwnsAll() && start <= next && old(clock) <= clock <= ticks(next)
        invariant sent <= |losses| - |queue| && queue == losses[|losses| - |queue|..]
        invariant sent < |losses| - |queue| ==> Limited()
        invariant sent + Quota(retransPkts, pkts, |queue|) == all && retransPkts == old(retransPkts) + sent
        invariant resent == old(resent) + losses[..sent] && conns[id].resent == old(conns[id].resent) + losses[..sent]
        invariant |conns[id].toClientQueue.packets| == size + sent && (sent == 0 || size + sent <= MAX_QUEUED + 1)
        invariant CanResend(conns[id].View(), queue) && conns[id].Losses() == old(conns[id].Losses())
        decreases |queue|
      {
        QuotaStep(retransPkts, pkts, |queue|);
        TickOn(ticks, next);
        NextLoss(losses, sent, |queue|);
        ghost var n;
        ok, n := SendOrSkip(queue, id, ticks(next));
        queue, sent := queue[1..], sent + n;
        if !ok {
          SkipRest(|queue|);
          return;
        }
        next := next + 1;
      }
      QuotaOfNone(retransPkts, pkts);
      ok := true;
    }

    /** One round of that loop: the first packet is skipped if the limit is reached, else sent again. */
    method SendOrSkip(queue: seq<Datagram>, id: ConnId, now: Time) returns (ok: bool, ghost n: nat)
      requires queue != [] && Sound(|queue|) && OwnsAll() && id in conns && NoTaskFor(retransTasks, id) && clock <= now
      requires conns[id].clientAddr != conns[id].serverAddr && CanResend(conns[id].View(), queue)
      modifies `resent, `retransPkts, `clock, At(id)`resent, At(id)`clock, conns[id].toClientQueue
      ensures old(clock) <= clock
      ensures conns[id].Losses() == old(conns[id].Losses())
      ensures Sound(|queue| - 1) && OwnsAll() && clock <= now
      ensures n == (if old(Limited()) then 0 else 1) && retransPkts == old(retransPkts) + n
      ensures resent == old(resent) + queue[..n] && conns[id].resent == old(conns[id].resent) + queue[..n]
      ensures ok <==> n == 0 || |old(conns[id].toClientQueue.packets)| <= MAX_QUEUED
      ensures !ok ==> QueueFull()
      ensures ok ==> |conns[id].toClientQueue.packets| == |old(conns[id].toClientQueue.packets)| + n
      ensures ok ==> CanResend(conns[id].View(), queue[1..])
    {
      hide Sound, NoTaskFor, CanResend, Conn.View, Pemi.QueueFull, AfterResend;
      ghost var v := conns[id].View();
      NextCanResend(v, queue);
      if Limited() {
        SkipOne(|queue| - 1);
        ok, n := true, 0;
      } else {
        n := 1;
        ok := Retransmit(queue[0], id, now, |queue| - 1);
        if ok {
          LaterCanResend(conns[id].View(), v, queue[0].number, queue[1..]);
        }
      }
    }

    lemma TaskHasConn(task: Task)
      requires OwnsAll() && TaskId(task) in conns && TaskOk(Ledger(), task)
      ensures var c := conns[TaskId(task)]; c.clientAddr != c.serverAddr && CanResend(c.View(), task.queue)
    {
      assert Ledger().views[TaskId(task)] == conns[TaskId(task)].View();
    }

    lemma SkipOne(left: nat)
      requires Sound(left + 1)
      ensures Sound(left)
    {
      hide Balanced;
      SpareShrinks(Ledger(), left + 1, left);
    }

    lemma SkipRest(left: nat)
      requires Sound(left)
      ensures Valid()
    {
      hide Balanced;
      SpareShrinks(Ledger(), left, 0);
    }

    /** Sending packets of one connection again changes the size of its queue, and no stream. */
    twostate lemma OnlyOneResent(id: ConnId)
      requires OwnsAll() && old(OwnsAll()) && conns == old(conns) && repr == old(repr) && id in conns
      requires forall k :: k in conns && k != id ==> Apart(conns[k], conns[id])
      requires forall o :: o in repr && o !in conns[id].Repr() ==> unchanged(o)
      requires conns[id].arrived == old(conns[id].arrived) && conns[id].Losses() == old(conns[id].Losses())
      requires conns[id].Out() == old(conns[id].Out())
      requires conns[id].lastAccess == old(conns[id].lastAccess)
      ensures id in old(Sizes()) && Sizes() == old(Sizes())[id := |conns[id].toClientQueue.packets|]
      ensures old(Sizes())[id] == |old(conns[id].toClientQueue.packets)|
      ensures forall k :: Standing(k) == old(Standing(k))
    {
      hide Pemi.Sizes, Pemi.Standing, Pemi.Untouched;
      OthersUntouched(id);
      SizesDiffer(id);
      StreamsSame(id);
    }

    twostate lemma SizesDiffer(id: ConnId)
      requires OwnsAll() && old(OwnsAll()) && conns == old(conns) && id in conns
      requires forall k :: k in conns && k != id ==> Untouched(k)
      ensures id in old(Sizes()) && Sizes() == old(Sizes())[id := |conns[id].toClientQueue.packets|]
      ensures old(Sizes())[id] == |old(conns[id].toClientQueue.packets)|
    {
      forall k | k in conns && k != id
        ensures Sizes()[k] == old(Sizes())[k]
      {
        assert Untouched(k);
      }
    }

    twostate lemma StreamsSame(id: ConnId)
      requires OwnsAll() && old(OwnsAll()) && conns == old(conns) && id in conns
      requires forall k :: k in conns && k != id ==> Untouched(k)
      requires conns[id].arrived == old(conns[id].arrived) && conns[id].Losses() == old(conns[id].Losses())
      requires conns[id].Out() == old(conns[id].Out())
      requires conns[id].lastAccess == old(conns[id].lastAccess)
      ensures forall k :: Standing(k) == old(Standing(k))
    {
      forall k | k in conns
        ensures conns[k].arrived == old(conns[k].arrived) && conns[k].Losses() == old(conns[k].Losses())
        ensures conns[k].Out() == old(conns[k].Out())
        ensures conns[k].lastAccess == old(conns[k].lastAccess)
      {
        assert k != id ==> Untouched(k);
      }
    }

    /** `pop_retrans_task`: the newest task first. */
    method PopRetransTask() returns (task: Task)
      requires Valid() && OwnsAll() && retransTasks != []
      modifies `retransTasks
      ensures Sound(|task.queue|) && OwnsAll() && TaskId(task) in conns && TaskOk(Ledger(), task)
      ensures NoTaskFor(retransTasks, TaskId(task)) && old(retransTasks) == retransTasks + [task]
    {
      hide Balanced, Conn.Valid, NoTaskFor;
      PopTaskKeepsBooks(Ledger());
      task := retransTasks[|retransTasks| - 1];
      retransTasks := retransTasks[..|retransTasks| - 1];
      assert Views() == old(Views());
    }

    /** The loop after every event: all tasks are carried out, unless a queue overflows on the way. */
    method DrainTasks(ticks: nat -> Time, start: nat) returns (ok: bool, next: nat)
      requires Valid() && OwnsAll() && Ticking(ticks) && clock <= ticks(start)
      modifies `resent, `retransPkts, `clock, `retransTasks, repr
      ensures old(clock) <= clock
      ensures Valid() && OwnsAll() && start <= next && clock <= ticks(next) && repr == old(repr) && conns == old(conns)
      ensures ok <==> Fits(old(retransTasks), old(Sizes()), old(retransPkts), pkts)
      ensures ok ==> retransTasks == [] && resent == old(resent) + Resends(old(retransTasks), old(retransPkts), pkts)
      ensures ok ==> Sizes() == Grown(old(retransTasks), old(Sizes()), old(retransPkts), pkts)
      ensures !ok ==> QueueFull()
      ensures forall k :: Stream(k) == old(Stream(k)) && Pending(k) == old(Pending(k)) && Access(k) == old(Access(k))
      ensures Outs() == old(Outs())
    {
      hide Sound, Ticking, Quota, Fits, Resends, Grown;
      hide Pemi.Sizes, Pemi.Standing, Pemi.Stream, Pemi.Pending, Pemi.Access, Pemi.Outs;
      next := start;
      while retransTasks != []
        invariant Valid() && OwnsAll() && start <= next && old(clock) <= clock <= ticks(next)
        invariant repr == old(repr) && conns == old(conns)
        invariant ToDo() == old(ToDo())
        invariant forall k :: Standing(k) == old(Standing(k))
        decreases |retransTasks|
      {
        ok, next := DrainOne(ticks, next);
        if !ok {
          StandingSays();
          return;
        }
      }
      NothingToDrain(Sizes(), retransPkts, pkts);
      StandingSays();
      ok := true;
    }

    twostate lemma StandingSays()
      requires OwnsAll() && old(OwnsAll()) && conns.Keys == old(conns).Keys
      requires forall k :: Standing(k) == old(Standing(k))
      ensures forall k :: Stream(k) == old(Stream(k)) && Pending(k) == old(Pending(k)) && Access(k) == old(Access(k))
      ensures Outs() == old(Outs())
    {
      hide Pemi.Stream, Pemi.Pending, Pemi.Access, Pemi.Out;
      forall k
        ensures Stream(k) == old(Stream(k)) && Pending(k) == old(Pending(k)) && Access(k) == old(Access(k))
        ensures Out(k) == old(Out(k))
      {
        assert Standing(k) == old(Standing(k));
      }
      assert Outs() == old(Outs());
    }

    /** Whether the pending tasks fit, and what will have been sent again once they are carried out. */
    ghost function ToDo(): (bool, seq<Datagram>, map<ConnId, nat>)
      reads this, repr
      requires OwnsAll()
    {
      var fits := Fits(retransTasks, Sizes(), retransPkts, pkts);
      (fits, if fits then resent + Resends(retransTasks, retransPkts, pkts) else [],
       if fits then Grown(retransTasks, Sizes(), retransPkts, pkts) else map[])
    }

    lemma HasSize(id: ConnId)
      requires OwnsAll() && id in conns
      ensures id in Sizes()
    {
    }

    /** Carries out the newest task. */
    method DrainOne(ticks: nat -> Time, start: nat) returns (ok: bool, next: nat)
      requires Valid() && OwnsAll() && Ticking(ticks) && clock <= ticks(start) && retransTasks != []
      modifies `resent, `retransPkts, `clock, `retransTasks, repr
      ensures old(clock) <= clock
      ensures Valid() && OwnsAll() && start <= next && clock <= ticks(next) && repr == old(repr) && conns == old(conns)
      ensures ok ==> |retransTasks| < |old(retransTasks)| && ToDo() == old(ToDo())
      ensures !ok ==> QueueFull() && !old(ToDo()).0
      ensures forall k :: Standing(k) == old(Standing(k))
    {
      hide Sound, Ticking, TaskOk, NoTaskFor, Quota, Fits, Resends, Grown, Pemi.Ledger, Pemi.QueueFull, TaskId,
        Pemi.Standing;
      hide Pemi.Sizes;
      ghost var sizes, r, was := Sizes(), retransPkts, resent;
      var task := PopRetransTask();
      HasSize(TaskId(task));
      NewestFirst(retransTasks, task, sizes, r, pkts);
      ghost var tasks, rest := retransTasks, Resends(retransTasks, r + Quota(r, pkts, |task.queue|), pkts);
      ghost var sent;
      ok, next, sent := ProcessRetransTask(task, ticks, start);
      assert was + (task.queue[..sent] + rest) == was + task.queue[..sent] + rest;
    }

    // -------------------------------------------------------------- events

    /** Event `e` is refused at once: a datagram that cannot be dealt with, or a panic of a congestion controller. */
    ghost predicate Rejects(e: Event)
      reads `conns, `repr, repr
      requires OwnsAll()
    {
      match e
      case Arrival(buf, src, dst, verdict, _) =>
        var o := OutcomeOf(buf, ConnIdOf(src, dst), src, verdict);
        o.Failed? || o.Stopped?
      case Timer(_, panics) => panics
      case Calibration(_) => false
    }

    /** Every client stream has grown by what event `e` brought, that of a new connection from nothing. */
    twostate predicate StreamsGrow(e: Event)
      reads `conns, `repr, repr
      requires OwnsAll() && old(OwnsAll())
    {
      forall k :: k in conns ==>
        && (if k in old(conns) then conns[k] == old(conns)[k] else IsFromClientOf(e, k, conns[k].clientAddr))
        && Stream(k) == old(Stream(k)) + FromClientIn(e, k, conns[k].clientAddr)
    }

    /**
     Where the datagrams of every client, `outs`, are after event `e` at `now`. Only those of a connection
     move that the event is a datagram of; one from the client may wait only if it is accepted after the
     handshake.
     */
    twostate predicate Forwards(e: Event, now: Time, new outs: map<ConnId, Outgoing>)
      reads `conns
      requires old(OwnsAll())
    {
      && outs.Keys == conns.Keys
      && forall k :: k in conns && k in outs ==>
           if IsOf(e, k) then ForwardsOwn(e, k, now, outs[k]) else outs[k] == old(Out(k))
    }

    /** The same for the connection `k` of the datagram. */
    twostate predicate ForwardsOwn(e: Event, k: ConnId, now: Time, new out: Outgoing)
      reads `conns
      requires old(OwnsAll()) && e.Arrival? && k in conns
    {
      var p := Consume(e.buf, k in old(conns), old(Handshaked(k)), old(FromClient(k, e.src)));
      var g := old(RegimeAt(k, e.src, now, e.verdict.TooFast?, p.handshaked));
      var accepted := old(OutcomeOf(e.buf, k, e.src, e.verdict)).Accepted?;
      if conns[k].IsFromClient(e.src) then
        ClientDatagramGoes(old(Out(k)), out, DelayedAck(now, e.buf, g.rtt),
                           if accepted && g.handshaked then g.before else None)
      else if accepted then ServerDatagramMoves(old(Out(k)), out, g.after, now)
      else out == old(Out(k))
    }

    /** Exactly the connection of a datagram is accessed by it. */
    twostate predicate AccessedBy(e: Event, now: Time)
      reads `conns, `repr, repr
      requires OwnsAll() && old(OwnsAll())
    {
      forall k :: k in conns ==> Access(k) == if IsOf(e, k) then Some(now) else old(Access(k))
    }

    /**
     The connections after event `e` at `now`: a datagram may open its own, and one that is accepted
     keeps its own; it and a timer remove exactly the idle ones with a stale heap entry.
     */
    twostate predicate Remain(e: Event, now: Time)
      reads `conns
      requires old(OwnsAll())
    {
      match e
      case Arrival(buf, src, dst, verdict, _) =>
        var id := ConnIdOf(src, dst);
        ConnsAfter(old(OutcomeOf(buf, id, src, verdict)), buf, id, src, now)
      case Timer(_, _) => conns == old(conns) - old(Doomed(now))
      case Calibration(_) => conns == old(conns)
    }

    /** How connection `k` is to protect its client once event `e` has been dealt with at `now`. */
    ghost function Due(e: Event, k: ConnId, now: Time): Protection
      reads `conns, `repr, repr
      requires OwnsAll()
    {
      match e
      case Arrival(buf, src, dst, verdict, _) =>
        var id := ConnIdOf(src, dst);
        if k == id && OutcomeOf(buf, id, src, verdict).Accepted? then NextProtected(id, src, now, buf, verdict.TooFast?)
        else Protected(k)
      case Timer(_, _) => AfterTimer(k, now)
      case Calibration(sample) => AfterCalibration(k, now, sample)
    }

    /**
     What event `e` at `now` leaves to be sent again: of every connection the losses it has just declared, if
     there are any, its direction is protected and its server is not too fast, in one task; and
     how long the queues then are.
     */
    twostate predicate Planned(e: Event, now: Time, new plan: Plan)
      reads `conns
      requires old(OwnsAll())
    {
      && plan.sizes.Keys == conns.Keys
      && (forall k :: k in conns && k in plan.sizes ==> plan.sizes[k] == |old(Due(e, k, now)).packets|)
      && (forall k :: k in conns ==>
            PlannedFor(plan.tasks, k, conns[k], old(Due(e, k, now)), |old(Seen(k)).handed|, Protects(e, k)))
      && (forall i :: 0 <= i < |plan.tasks| ==> TaskId(plan.tasks[i]) in conns)
      && (forall i, j :: 0 <= i < j < |plan.tasks| ==> TaskId(plan.tasks[i]) != TaskId(plan.tasks[j]))
    }

    /**
     One event, and the retransmissions it causes; `plan` is what it leaves to be sent again. It
     succeeds exactly if it is not refused and that fits the queues.
     */
    method Handle(e: Event, ticks: nat -> Time, start: nat) returns (ok: bool, next: nat, ghost plan: Plan)
      requires AtRest() && Ticking(ticks) && clock <= ticks(start)
      requires e.Arrival? ==> e.buf != []
      modifies this, repr
      ensures Valid() && OwnsAll() && pkts == old(pkts) + (if e.Arrival? then 1 else 0)
      ensures !old(Rejects(e)) ==> Remain(e, ticks(start)) && Planned(e, ticks(start), plan)
      ensures ok <==> !old(Rejects(e)) && Fits(plan.tasks, plan.sizes, old(retransPkts), pkts)
      ensures ok ==> resent == old(resent) + Resends(plan.tasks, old(retransPkts), pkts)
      ensures ok ==> Sizes() == Grown(plan.tasks, plan.sizes, old(retransPkts), pkts)
      ensures ok ==> AtRest() && start < next && ticks(start) <= clock <= ticks(next) && fresh(repr - old(repr))
      ensures ok ==> StreamsGrow(e) && AccessedBy(e, ticks(start)) && Forwards(e, ticks(start), Outs())
      ensures !ok ==> Blames(e)
      ensures e.Calibration? ==> ok
    {
      hide Sound, Pemi.OutcomeOf, Unreadable, ConnIdOf, Fits, Resends, Grown, Pemi.Rejects, Pemi.Remain, Pemi.Planned,
        Pemi.Stream, Pemi.Pending, Pemi.Access, Pemi.Outs, Pemi.Forwards;
      plan := Plan([], map[]);
      ok := React(e, ticks(start));
      if !ok {
        return false, start, plan;
      }
      TickOn(ticks, start);
      NothingToDrain(Sizes(), retransPkts, pkts);
      plan := Plan(retransTasks, Sizes());
      ok, next := DrainTasks(ticks, start + 1);
    }

    twostate lemma StreamsGrew(new o: Outcome, new e: Event, new id: ConnId, new now: Time)
      requires OwnsAll() && old(OwnsAll()) && (o.Accepted? || o.PassedOn?)
      requires e.Arrival? && id == ConnIdOf(e.src, e.dst)
      requires ConnsAfter(o, e.buf, id, e.src, now) && HistoriesAfter(o, e.buf, id, e.src, now, e.verdict, e.protect)
      ensures StreamsGrow(e)
    {
      hide Consume, Pemi.Doomed, NoTaskFor, Pemi.SeenAfter, Pemi.NextProtected, Pemi.Protected, Pemi.Records;
      HeardMore(e.buf, id, e.src, now, e.verdict, o.Accepted?);
      forall k | k in conns
        ensures if k in old(conns) then conns[k] == old(conns)[k] else IsFromClientOf(e, k, conns[k].clientAddr)
        ensures Stream(k) == old(Stream(k)) + FromClientIn(e, k, conns[k].clientAddr)
      {
        if k != id {
          assert k in conns - {id} && (conns - {id})[k] == conns[k];
          UnchangedRecord(o, k, id, now);
        }
      }
    }

    /** A connection with datagrams waiting has seen its handshake, so it accepts all; and its server is too fast. */
    twostate lemma WaitsForReason(new e: Event, new id: ConnId, new now: Time)
      requires old(Valid()) && old(OwnsAll()) && e.Arrival?
      ensures var p := Consume(e.buf, id in old(conns), old(Handshaked(id)), old(FromClient(id, e.src)));
              var g := old(RegimeAt(id, e.src, now, e.verdict.TooFast?, p.handshaked));
              && (old(Out(id)).waiting != [] ==> p.handshaked && p.error == None && g.before.Some?)
              && (old(FromClient(id, e.src)) ==> g.after == g.before) && g.handshaked == p.handshaked
    {
      hide Balanced, Consume;
      HandshakedAcceptsAll(e.buf, old(FromClient(id, e.src)));
      if id in old(conns) {
        assert old(conns[id].Valid());
      }
    }

    twostate lemma PacketForwards(new o: Outcome, new e: Event, new id: ConnId, new now: Time)
      requires OwnsAll() && old(OwnsAll()) && old(Valid()) && (o.Accepted? || o.PassedOn?)
      requires e.Arrival? && id == ConnIdOf(e.src, e.dst) && o == old(OutcomeOf(e.buf, id, e.src, e.verdict))
      requires ConnsAfter(o, e.buf, id, e.src, now) && HistoriesAfter(o, e.buf, id, e.src, now, e.verdict, e.protect)
      ensures Forwards(e, now, Outs())
    {
      hide Sound, Pemi.Doomed, Pemi.ForwardsOwn, ConnIdOf, Pemi.Records, Pemi.SeenAfter, NoTaskFor, Pemi.ConnsAfter,
        Pemi.OutcomeOf, Pemi.HandsOver, Pemi.NextProtected, Pemi.Protected, Conn.Seen;
      if id in conns {
        PacketForwardsOwn(o, e, id, now);
      }
      forall k | k in conns && k != id
        ensures Out(k) == old(Out(k))
      {
        UnchangedRecord(o, k, id, now);
      }
    }

    twostate lemma PacketForwardsOwn(new o: Outcome, new e: Event, new id: ConnId, new now: Time)
      requires OwnsAll() && old(OwnsAll()) && old(Valid()) && (o.Accepted? || o.PassedOn?) && id in conns
      requires e.Arrival? && id == ConnIdOf(e.src, e.dst) && o == old(OutcomeOf(e.buf, id, e.src, e.verdict))
      requires ConnsAfter(o, e.buf, id, e.src, now) && HistoriesAfter(o, e.buf, id, e.src, now, e.verdict, e.protect)
      ensures ForwardsOwn(e, id, now, Out(id))
    {
      hide Consume, Sound, Pemi.Doomed, NoTaskFor, Pemi.RegimeAt, Pemi.Handshaked, After, ClientDatagramGoes,
        ServerDatagramMoves, ConnIdOf, Pemi.Records;
      var fromClient := old(FromClient(id, e.src));
      var p := Consume(e.buf, id in old(conns), old(Handshaked(id)), fromClient);
      WaitsForReason(e, id, now);
      AfterGoes(old(Seen(id)), fromClient, o.Accepted?, now, e.buf,
                old(RegimeAt(id, e.src, now, e.verdict.TooFast?, p.handshaked)));
    }

    twostate lemma NothingMoves(new e: Event, new now: Time)
      requires OwnsAll() && old(OwnsAll()) && !e.Arrival? && forall k :: k in conns ==> Out(k) == old(Out(k))
      ensures Forwards(e, now, Outs())
    {
    }

    twostate lemma SettledByTimer(new protect: set<ConnId>)
      requires OwnsAll() && old(OwnsAll()) && old(Settled()) && conns.Keys <= old(conns).Keys
      requires forall k :: k in conns ==> HandsOver(k, old(Seen(k)), k in protect)
      ensures Settled() && forall k :: k in conns ==> Stream(k) == old(Stream(k)) && Out(k) == old(Out(k))
    {
      hide NoTaskFor;
      forall k | k in conns
        ensures Stream(k) == old(Stream(k)) != [] && Pending(k) == [] && Out(k) == old(Out(k))
      {
        NothingPending(k);
      }
    }

    twostate lemma SettledByCalibration(new now: Time, new sample: Duration)
      requires OwnsAll() && old(OwnsAll()) && old(Settled()) && conns == old(conns)
      requires forall k :: k in conns ==>
                 Protected(k) == old(AfterCalibration(k, now, sample)) && Seen(k) == old(Seen(k))
      ensures Settled() && forall k :: k in conns ==> Stream(k) == old(Stream(k)) && Out(k) == old(Out(k))
    {
      hide Conn.Seen, Conn.Deviates;
      forall k | k in conns
        ensures Stream(k) == old(Stream(k)) != [] && Pending(k) == [] && Out(k) == old(Out(k))
      {
        assert Protected(k).log == old(Protected(k)).log;
        assert old(Pending(k)) == [];
      }
    }

    /** The event itself. */
    method React(e: Event, now: Time) returns (ok: bool)
      requires AtRest() && clock <= now
      requires e.Arrival? ==> e.buf != []
      modifies this, repr
      ensures Valid() && OwnsAll() && pkts == old(pkts) + (if e.Arrival? then 1 else 0)
      ensures ok == !old(Rejects(e)) && retransPkts == old(retransPkts) && resent == old(resent)
      ensures ok ==> clock == now && fresh(repr - old(repr)) && StreamsGrow(e) && AccessedBy(e, now) && Settled()
      ensures ok ==> Remain(e, now) && Planned(e, now, Plan(retransTasks, Sizes())) && Forwards(e, now, Outs())
      ensures !ok ==> Blames(e)
      ensures e.Calibration? ==> retransTasks == []
    {
      hide Sound, Pemi.OutcomeOf, Unreadable, ConnIdOf, Pemi.Doomed, Consume, Pemi.ConnsAfter, Pemi.HistoriesAfter,
        Pemi.Settled, Pemi.Seen, Pemi.Protected, Pemi.HandsOver, Pemi.Stream, Pemi.AfterTimer, Pemi.AfterCalibration,
        Pemi.Access, Pemi.Sizes, Pemi.Planned, Pemi.AccessedBy, Pemi.Out, Pemi.Forwards;
      match e {
        case Arrival(buf, src, dst, verdict, protect) =>
          var o := ProcessPacket(buf, now, src, dst, verdict, protect);
          ok := o.Accepted? || o.PassedOn?;
          if ok {
            TasksFiled();
            StreamsGrew(o, e, ConnIdOf(src, dst), now);
            PacketForwards(o, e, ConnIdOf(src, dst), now);
            PacketPlanned(o, e, ConnIdOf(src, dst), now);
          }
        case Timer(protect, panics) =>
          ok := ProcessTimeout(now, protect, panics);
          if ok {
            TasksFiled();
            SettledByTimer(protect);
            NothingMoves(e, now);
            TimerPlanned(e, now);
          }
        case Calibration(sample) =>
          RttCalibration(now, sample);
          SettledByCalibration(now, sample);
          NothingMoves(e, now);
          CalibrationPlanned(e, now);
          ok := true;
      }
    }

    /** Every task belongs to a connection, which has no other. */
    ghost predicate OneTaskEach()
      reads `conns, `retransTasks
    {
      && (forall i :: 0 <= i < |retransTasks| ==> TaskId(retransTasks[i]) in conns)
      && (forall i, j :: 0 <= i < j < |retransTasks| ==> TaskId(retransTasks[i]) != TaskId(retransTasks[j]))
    }

    lemma TasksFiled()
      requires Valid()
      ensures OneTaskEach()
    {
      hide Conn.Valid, HeapOk, Filed, Used, RateOk, CanResend;
      var b := Ledger();
      assert Balanced(b, 0);
      assert forall i :: 0 <= i < |b.tasks| ==> TaskOk(b, b.tasks[i]);
    }

    /** Once nothing is pending, all losses declared have been handed over. */
    lemma AllHandedOver(k: ConnId)
      requires OwnsAll() && k in conns && conns[k].toClientQueue.detectedLoss == []
      ensures Protected(k).log == Seen(k).handed && Sizes()[k] == |Protected(k).packets|
      ensures conns[k].overspeed == Protected(k).overspeed
    {
    }

    lemma SizeOf(k: ConnId)
      requires OwnsAll() && k in conns
      ensures k in Sizes() && Sizes()[k] == |Protected(k).packets|
    {
    }

    lemma SizesAreOfConns()
      requires OwnsAll()
      ensures Sizes().Keys == conns.Keys
    {
    }

    twostate lemma PacketPlanned(new o: Outcome, new e: Event, new id: ConnId, new now: Time)
      requires OwnsAll() && old(OwnsAll()) && old(Settled()) && (o.Accepted? || o.PassedOn?) && OneTaskEach()
      requires e.Arrival? && id == ConnIdOf(e.src, e.dst) && o == old(OutcomeOf(e.buf, id, e.src, e.verdict))
      requires ConnsAfter(o, e.buf, id, e.src, now) && HistoriesAfter(o, e.buf, id, e.src, now, e.verdict, e.protect)
      ensures Planned(e, now, Plan(retransTasks, Sizes())) && AccessedBy(e, now)
    {
      hide Consume, Pemi.Doomed, NoTaskFor, Pemi.Records, Pemi.OutcomeOf, Pemi.NextProtected, Pemi.ConnsAfter, ConnIdOf,
        Pemi.Sizes, Conn.Seen, Conn.Protected, Pemi.SeenAfter;
      NoTasks(conns.Keys);
      SizesAreOfConns();
      HeardMore(e.buf, id, e.src, now, e.verdict, o.Accepted?);
      forall k | k in conns
        ensures Access(k) == if IsOf(e, k) then Some(now) else old(Access(k))
        ensures k in Sizes() && Sizes()[k] == |old(Due(e, k, now)).packets|
        ensures PlannedFor(retransTasks, k, conns[k], old(Due(e, k, now)), |old(Seen(k)).handed|, Protects(e, k))
      {
        SizeOf(k);
        if k != id {
          UnchangedRecord(o, k, id, now);
          assert old(Pending(k)) == [];
        } else if o.Accepted? {
          AllHandedOver(k);
        } else {
          assert old(Pending(k)) == [];
        }
      }
    }

    twostate lemma TimerPlanned(new e: Event, new now: Time)
      requires OwnsAll() && old(OwnsAll()) && e.Timer? && OneTaskEach() && conns.Keys <= old(conns).Keys
      requires forall k :: k in conns ==> Access(k) == old(Access(k))
      requires forall k :: k in conns ==>
                 Protected(k) == old(AfterTimer(k, now)) && HandsOver(k, old(Seen(k)), k in e.protected)
      ensures Planned(e, now, Plan(retransTasks, Sizes())) && AccessedBy(e, now)
    {
      hide NoTaskFor, Pemi.Sizes, Conn.Seen, Conn.Protected, Pemi.AfterTimer;
      SizesAreOfConns();
      forall k | k in conns
        ensures k in Sizes() && Sizes()[k] == |old(Due(e, k, now)).packets|
        ensures PlannedFor(retransTasks, k, conns[k], old(Due(e, k, now)), |old(Seen(k)).handed|, Protects(e, k))
      {
        SizeOf(k);
        AllHandedOver(k);
      }
    }

    twostate lemma CalibrationPlanned(new e: Event, new now: Time)
      requires OwnsAll() && old(OwnsAll()) && e.Calibration? && retransTasks == [] && conns == old(conns)
      requires forall k :: k in conns ==> Access(k) == old(Access(k))
      requires forall k :: k in conns ==> Protected(k) == old(AfterCalibration(k, now, e.sample))
      ensures Planned(e, now, Plan(retransTasks, Sizes())) && AccessedBy(e, now)
    {
      hide NoTaskFor, Pemi.Sizes, Conn.Seen, Conn.Protected, Pemi.AfterCalibration;
      SizesAreOfConns();
      NoTasks(conns.Keys);
      forall k | k in conns
        ensures k in Sizes() && Sizes()[k] == |old(Due(e, k, now)).packets|
      {
        SizeOf(k);
      }
    }

    /** Every connection has the whole stream of its client since it was opened. */
    ghost predicate StreamsOf(events: seq<Event>, times: seq<Time>)
      reads `conns, `repr, repr
      requires OwnsAll() && |times| == |events|
    {
      forall k :: k in conns ==> IsStreamOf(Stream(k), events, times, k, conns[k].clientAddr)
    }

    /**
     Every connection heard of less than an idle timeout before the last event is there, and was accessed
     no earlier.
     */
    ghost predicate KeptAlive(events: seq<Event>, times: seq<Time>)
      reads this, repr
      requires OwnsAll() && |times| == |events|
    {
      times != [] ==>
        var last := times[|times| - 1];
        last <= clock && forall k :: IsKept(LastHeard(events, times, k), Access(k), last)
    }

    twostate lemma StreamsGoOn(new events: seq<Event>, new times: seq<Time>, new e: Event, new now: Time)
      requires old(OwnsAll()) && OwnsAll() && |times| == |events| && old(clock) <= now
      requires old(StreamsOf(events, times)) && old(KeptAlive(events, times)) && StreamsGrow(e)
      requires !old(Rejects(e)) && Remain(e, now) && (e.Arrival? ==> e.buf != [])
      ensures StreamsOf(events + [e], times + [now])
    {
      hide IsStreamOf, LastHeard, Opens, Pemi.Access, Pemi.Remain, Pemi.Rejects;
      forall k | k in conns
        ensures IsStreamOf(Stream(k), events + [e], times + [now], k, conns[k].clientAddr)
      {
        if k in old(conns) {
          StreamGoesOn(old(Stream(k)), events, times, e, now, k, conns[k].clientAddr);
        } else {
          OpensNew(e, k, now);
          IsStillKept(events, times, k, now);
          StreamStarts(events, times, e, now, k, conns[k].clientAddr);
          assert Stream(k) == [e.buf];
        }
      }
    }

    /** Only a datagram that begins with an Initial opens its connection. */
    twostate lemma OpensNew(new e: Event, new k: ConnId, new now: Time)
      requires old(OwnsAll()) && !old(Rejects(e)) && Remain(e, now)
      requires IsOf(e, k) && e.buf != [] && k in conns && k !in old(conns)
      ensures Opens(e)
    {
      hide Consume, FirstPacket, Pemi.Doomed, ConnIdOf, Pemi.StopsAt;
      InitialIsKnown(e.buf, false, old(Handshaked(k)), old(FromClient(k, e.src)));
    }

    /** A connection that has not expired by the next event is there, and was accessed since it was heard of. */
    twostate lemma IsStillKept(new events: seq<Event>, new times: seq<Time>, new k: ConnId, new now: Time)
      requires old(OwnsAll()) && |times| == |events| && old(KeptAlive(events, times)) && old(clock) <= now
      ensures IsKept(LastHeard(events, times, k), old(Access(k)), now)
      ensures k !in old(conns) ==> HasExpired(LastHeard(events, times, k), now)
    {
      if times == [] {
        assert LastHeard(events, times, k) == None;
      } else {
        hide LastHeard;
        assert IsKept(LastHeard(events, times, k), old(Access(k)), times[|times| - 1]);
      }
    }

    /** An event keeps the connections alive that were heard of lately, its own among them. */
    twostate lemma AliveGoesOn(new events: seq<Event>, new times: seq<Time>, new e: Event, new now: Time)
      requires old(OwnsAll()) && OwnsAll() && |times| == |events| && old(clock) <= now <= clock && !old(Rejects(e))
      requires old(KeptAlive(events, times)) && Remain(e, now) && AccessedBy(e, now) && (e.Arrival? ==> e.buf != [])
      ensures KeptAlive(events + [e], times + [now])
    {
      hide LastHeard, Pemi.Remain, Pemi.AccessedBy, Pemi.Access, Pemi.Rejects;
      forall k
        ensures IsKept(LastHeard(events + [e], times + [now], k), Access(k), now)
      {
        HeardOnce(events, times, e, now, k);
        IsStillKept(events, times, k, now);
        var heard := LastHeard(events, times, k);
        if IsOf(e, k) && (Opens(e) || !HasExpired(heard, now)) {
          StaysOwn(e, k, now);
        } else if !HasExpired(heard, now) {
          StaysOther(e, k, now, heard.value);
        }
      }
    }

    /** The connection of a datagram is there after it, if it was before or the datagram begins with an Initial. */
    twostate lemma StaysOwn(new e: Event, new k: ConnId, new now: Time)
      requires old(OwnsAll()) && OwnsAll() && !old(Rejects(e)) && Remain(e, now) && AccessedBy(e, now)
      requires IsOf(e, k) && e.buf != [] && (Opens(e) || old(Access(k)).Some?)
      ensures Access(k) == Some(now)
    {
      hide Consume, FirstPacket, Pemi.Doomed, ConnIdOf, Pemi.StopsAt;
      InitialIsKnown(e.buf, k in old(conns), old(Handshaked(k)), old(FromClient(k, e.src)));
    }

    /** A connection accessed within the last idle timeout stays, whatever happens. */
    twostate lemma StaysOther(new e: Event, new k: ConnId, new now: Time, new t: Time)
      requires old(OwnsAll()) && OwnsAll() && !old(Rejects(e)) && Remain(e, now) && AccessedBy(e, now)
      requires !IsOf(e, k) && old(Access(k)).Some? && t <= old(Access(k)).value && Since(now, t) < IDLE_TIMEOUT
      ensures Access(k) == old(Access(k))
    {
      hide Consume, ConnIdOf, Pemi.StopsAt, HasStale;
      assert k !in old(Doomed(now));
      if e.Arrival? {
        var id := ConnIdOf(e.src, e.dst);
        assert k in old(conns) - old(Doomed(now)) - {id} && k in old(conns) - {id};
        assert k in conns - {id};
      }
    }

    /** One event of a run, after these events. */
    method Step(ghost before: seq<Event>, ghost times: seq<Time>, e: Event, ticks: nat -> Time, start: nat)
      returns (ok: bool, next: nat)
      requires AtRest() && Ticking(ticks) && clock <= ticks(start) && |times| == |before|
      requires (e.Arrival? ==> e.buf != []) && StreamsOf(before, times) && KeptAlive(before, times)
      modifies this, repr
      ensures Valid() && OwnsAll() && pkts == old(pkts) + (if e.Arrival? then 1 else 0)
      ensures ok ==> AtRest() && start < next && clock <= ticks(next) && fresh(repr - old(repr))
      ensures ok ==> StreamsOf(before + [e], times + [ticks(start)]) && KeptAlive(before + [e], times + [ticks(start)])
      ensures !ok ==> Blames(e)
    {
      hide Sound, Pemi.StreamsOf, Pemi.StreamsGrow, Pemi.Blames, Pemi.Rejects, Pemi.Settled, Fits, Resends, Grown,
        Pemi.KeptAlive, Pemi.Remain, Pemi.Planned, Pemi.AccessedBy;
      ghost var plan;
      ok, next, plan := Handle(e, ticks, start);
      if ok {
        StreamsGoOn(before, times, e, ticks(start));
        AliveGoesOn(before, times, e, ticks(start));
      }
    }

    /** A connection of which no client datagram was accepted cannot take a server datagram. */
    lemma ServerStops(id: ConnId, src: Addr)
      requires Valid() && OwnsAll() && id in conns && !FromClient(id, src) && Seen(id).accepted == 0
      ensures StopsAt(id, src)
    {
      hide Balanced;
      ServerRttIsMeasurable(conns[id]);
    }

    /** The event loop of a middlebox that has just started. */
    method HandleAll(events: seq<Event>, ticks: nat -> Time)
      returns (handled: nat, ghost at: seq<nat>)
      requires Valid() && OwnsAll() && conns == map[] && retransTasks == [] && pkts == 0
      requires Ticking(ticks) && clock <= ticks(0)
      requires forall i :: 0 <= i < |events| && events[i].Arrival? ==> events[i].buf != []
      modifies this, repr
      ensures handled <= |events| && Valid() && OwnsAll()
      ensures pkts == CountArrivals(if handled < |events| then events[..handled + 1] else events)
      ensures handled < |events| ==> Blames(events[handled])
      ensures |at| == handled && forall i, j :: 0 <= i < j < |at| ==> at[i] < at[j]
      ensures handled == |events| ==>
                retransTasks == [] && StreamsOf(events, TimesAt(ticks, at)) && KeptAlive(events, TimesAt(ticks, at))
    {
      hide Sound, Pemi.StreamsOf, Pemi.Blames, CountArrivals, Ticking, Pemi.OwnsAll, Pemi.QueueFull, Pemi.Settled,
        Pemi.KeptAlive, TimesAt;
      NothingHappened();
      NoTimes(ticks);
      var n: nat := 0;
      handled, at := 0, [];
      while handled < |events|
        invariant handled <= |events| && AtRest() && fresh(repr - old(repr)) && |at| == handled
        invariant clock <= ticks(n) && pkts == CountArrivals(events[..handled])
        invariant StreamsOf(events[..handled], TimesAt(ticks, at)) && KeptAlive(events[..handled], TimesAt(ticks, at))
        invariant forall i, j :: 0 <= i < j < |at| ==> at[i] < at[j]
        invariant forall i :: 0 <= i < |at| ==> at[i] < n
      {
        assert events[..handled + 1] == events[..handled] + [events[handled]];
        OneMoreArrival(events[..handled], events[handled]);
        OneMoreTime(ticks, at, n);
        var ok, next := Step(events[..handled], TimesAt(ticks, at), events[handled], ticks, n);
        if !ok {
          return;
        }
        at := at + [n];
        n, handled := next, handled + 1;
      }
      assert events[..handled] == events;
    }

    /** What a first datagram leaves that opens a connection and is turned away. */
    twostate lemma OpenedOnly(new buf: Bytes, new id: ConnId, new src: Addr, new now: Time)
      requires OwnsAll() && old(OwnsAll()) && old(conns) == map[] && Consume(buf, false, false, true).known
      requires ConnsAfter(PassedOn, buf, id, src, now) && HistoriesAfter(PassedOn, buf, id, src, now, WithinPace, true)
      ensures id in conns && FromClient(id, src) && Seen(id).accepted == 0 && retransTasks == []
    {
      hide Consume, Pemi.Records, Pemi.Doomed, Pemi.HandsOver;
    }

    /** A server datagram that can be read stops the program if no client datagram was accepted. */
    lemma StopsNext(id: ConnId, src: Addr, buf: Bytes)
      requires Valid() && OwnsAll() && id in conns && !FromClient(id, src) && Seen(id).accepted == 0
      requires Consume(buf, true, false, false).error == None
      ensures OutcomeOf(buf, id, src, WithinPace) == Stopped
    {
      hide Consume, Sound, Pemi.OutcomeOf, Pemi.StopsAt;
      ServerStops(id, src);
      HandshakedAcceptsAll(buf, false);
      OutcomeByError(buf, id, src, WithinPace);
    }

    lemma NothingHappened()
      requires OwnsAll() && conns == map[]
      ensures StreamsOf([], []) && KeptAlive([], []) && Settled() && CountArrivals([]) == 0
    {
    }

    /** Every client stream is sent on, slightly reordered, but for the last few datagrams, which wait. */
    lemma AllArePassed()
      requires Valid() && OwnsAll()
      ensures forall k :: k in conns ==> IsPassage(Stream(k), Out(k))
    {
      hide Sound, IsPassage;
      forall k | k in conns
        ensures IsPassage(Stream(k), Out(k))
      {
        ConnIsReady(k, 0);
        RestsWhenValid(conns[k]);
        ClientStream(conns[k]);
      }
    }

    lemma RestsWhenValid(c: Conn)
      requires c.Valid()
      ensures c.AtRest()
    {
    }

    lemma CountersAreBounded()
      requires Valid()
      ensures WithinLimit(retransPkts, pkts) && |resent| == retransPkts
    {
      hide Balanced;
      RetransmissionsAreBounded(Ledger(), 0, 0);
    }
  }

  // ---------------------------------------------------------------- helpers

  lemma SweptMap<T>(before: map<ConnId, T>, mid: map<ConnId, T>, gone: set<ConnId>, doomed: set<ConnId>, id: ConnId)
    requires mid - {id} == before - {id} && doomed - {id} == gone - {id}
    ensures mid - doomed - {id} == before - gone - {id}
  {
    var a, b := mid - doomed - {id}, before - gone - {id};
    forall k | k in a || k in b
      ensures k in a && k in b && a[k] == b[k]
    {
      assert k in mid - {id} <==> k in before - {id};
      assert k in doomed - {id} <==> k in gone - {id};
      assert (mid - {id})[k] == (before - {id})[k];
    }
    assert a.Keys == b.Keys;
  }

  /** Only the idle connections among those swept matter. */
  lemma SameIdle(heap: seq<AccessTime>, ids: set<ConnId>, idle: set<ConnId>, more: set<ConnId>,
                 after: seq<AccessTime>, left: set<ConnId>, now: Time)
    requires IsSwept(heap, ids, idle, after, left, now) && forall id :: id in ids ==> (id in idle <==> id in more)
    ensures IsSwept(heap, ids, more, after, left, now)
  {
  }

  lemma SweptEntries(heap: seq<AccessTime>, ids: set<ConnId>, idle: set<ConnId>,
                     after: seq<AccessTime>, left: set<ConnId>, now: Time)
    requires IsSwept(heap, ids, idle, after, left, now)
    ensures forall e :: e in after ==> e in heap || (e.time == now && HasStale(heap, e.id, now))
    ensures forall e :: e in heap && !IsStale(e, now) ==> e in after
  {
  }

  /** At most tasks of connection `id` came in addition. */
  ghost predicate TasksKept(before: seq<Task>, after: seq<Task>, id: ConnId) {
    && (forall t :: t in before ==> t in after)
    && (forall t :: t in after && t !in before ==> TaskId(t) == id)
  }

  lemma KeptFor(before: seq<Task>, after: seq<Task>, id: ConnId, ids: set<ConnId>)
    requires TasksKept(before, after, id)
    ensures forall t :: t in before ==> t in after
    ensures forall k :: k in ids && k != id && NoTaskFor(before, k) ==> NoTaskFor(after, k)
  {
    forall k, i | k in ids && k != id && NoTaskFor(before, k) && 0 <= i < |after|
      ensures TaskId(after[i]) != k
    {
      assert after[i] in after;
      if after[i] in before {
        var j :| 0 <= j < |before| && before[j] == after[i];
      }
    }
  }

  lemma NoTasks(ids: set<ConnId>)
    ensures forall k :: k in ids ==> NoTaskFor([], k)
  {
  }

  /** A timer that has not run out has no flowlet past its deadline. */
  lemma NoneExpired(flowlets: seq<Flowlet>, left: Option<Duration>, rtt: Duration, timeout: Duration, now: Time)
    requires left.Some? ==> left.value > 0.0
    requires left.None? ==> rtt == 0.0 || flowlets == []
    requires left.Some? ==> forall i :: 0 <= i < |flowlets| ==> left.value <= Since(flowlets[i].end + timeout, now)
    ensures rtt == 0.0 || forall i :: 0 <= i < |flowlets| ==> !Expired(flowlets[i], now, timeout)
  {
  }

  lemma QuotaOfNone(retransPkts: nat, pkts: nat)
    ensures Quota(retransPkts, pkts, 0) == 0
  {
  }

  lemma QuotaStep(retransPkts: nat, pkts: nat, n: nat)
    requires n > 0
    ensures if 10 * retransPkts > pkts && pkts > UNLIMITED_PKTS
            then Quota(retransPkts, pkts, n) == Quota(retransPkts, pkts, n - 1) == 0
            else Quota(retransPkts, pkts, n) == 1 + Quota(retransPkts + 1, pkts, n - 1)
  {
  }

  /** The prefix of `losses` sent and the rest, of which `left` packets are not looked at yet. */
  lemma NextLoss(losses: seq<Datagram>, sent: nat, left: nat)
    requires 0 < left && sent + left <= |losses|
    ensures var queue := losses[|losses| - left..];
            && queue[1..] == losses[|losses| - (left - 1)..]
            && losses[..sent] + queue[..0] == losses[..sent]
            && (sent + left == |losses| ==> losses[..sent] + queue[..1] == losses[..sent + 1])
  {
  }

  lemma NextCanResend(v: View, losses: seq<Datagram>)
    requires CanResend(v, losses) && losses != []
    ensures CanResend(v, [losses[0]]) && CanResend(v, losses[1..])
    ensures forall i :: 1 <= i < |losses| ==> losses[0].number < losses[i].number
  {
  }

  /** The view of a connection after one of its packets was sent again and recorded. */
  ghost predicate AfterResend(v: View, u: View, number: nat) {
    Succeeds(v, u.(resent := number))
  }

  lemma LaterCanResend(v: View, u: View, number: nat, losses: seq<Datagram>)
    requires CanResend(u, losses) && AfterResend(v, u, number)
    requires forall i :: 0 <= i < |losses| ==> number < losses[i].number
    ensures CanResend(v, losses)
  {
  }

  lemma NothingToDrain(sizes: map<ConnId, nat>, retransPkts: nat, pkts: nat)
    ensures Fits([], sizes, retransPkts, pkts) && Resends([], retransPkts, pkts) == []
    ensures Grown([], sizes, retransPkts, pkts) == sizes
  {
  }

  lemma NewestFirst(tasks: seq<Task>, task: Task, sizes: map<ConnId, nat>, retransPkts: nat, pkts: nat)
    requires TaskId(task) in sizes
    ensures var n := Quota(retransPkts, pkts, |task.queue|); var size := sizes[TaskId(task)];
            && (Fits(tasks + [task], sizes, retransPkts, pkts) <==>
                  (n == 0 || size + n <= MAX_QUEUED + 1) &&
                  Fits(tasks, sizes[TaskId(task) := size + n], retransPkts + n, pkts))
            && Resends(tasks + [task], retransPkts, pkts) == task.queue[..n] + Resends(tasks, retransPkts + n, pkts)
            && Grown(tasks + [task], sizes, retransPkts, pkts) ==
               Grown(tasks, sizes[TaskId(task) := size + n], retransPkts + n, pkts)
  {
    assert (tasks + [task])[..|tasks|] == tasks;
  }

  /** Successive readings of a clock that never goes back. */
  ghost predicate Ticking(ticks: nat -> Time) {
    forall i: nat, j: nat :: i <= j ==> ticks(i) <= ticks(j)
  }

  lemma TickOn(ticks: nat -> Time, i: nat)
    requires Ticking(ticks)
    ensures ticks(i) <= ticks(i + 1)
  {
  }

  // ---------------------------------------------------------------- whole runs

  /** What wakes the middlebox: a datagram, its timer, or a measured RTT. */
  datatype Event =
    | Arrival(buf: Bytes, src: Addr, dst: Addr, verdict: Verdict, protect: bool)
    | Timer(protected: set<ConnId>, panics: bool)
    | Calibration(sample: Duration)

  /** The event is a datagram of connection `k`. */
  ghost predicate IsOf(e: Event, k: ConnId) {
    e.Arrival? && ConnIdOf(e.src, e.dst) == k
  }

  /** Whether traffic to the client of connection `k` is worth protecting, as event `e` has it. */
  ghost predicate Protects(e: Event, k: ConnId) {
    match e
    case Arrival(_, _, _, _, protect) => protect
    case Timer(protected, _) => k in protected
    case Calibration(_) => false
  }

  /**
   The tasks for connection `k`, which is to be in state `p` and had handed over `handed` losses before: one with
   all losses since, if there are any and they are worth sending, else none.
   */
  ghost predicate PlannedFor(tasks: seq<Task>, k: ConnId, c: Conn, p: Protection, handed: nat, protect: bool) {
    var losses := if handed <= |p.log| then p.log[handed..] else [];
    if losses != [] && protect && !p.overspeed then Task(c.serverAddr, c.clientAddr, losses) in tasks
    else NoTaskFor(tasks, k)
  }

  /** The event is a datagram from the client of connection `k`. */
  ghost predicate IsFromClientOf(e: Event, k: ConnId, client: Addr) {
    e.Arrival? && ConnIdOf(e.src, e.dst) == k && e.src == client
  }

  /** What an event brings from the client of connection `k`. */
  ghost function FromClientIn(e: Event, k: ConnId, client: Addr): seq<Bytes> {
    if IsFromClientOf(e, k, client) then [e.buf] else []
  }

  ghost function FromClientInAll(events: seq<Event>, k: ConnId, client: Addr): seq<Bytes> {
    if events == [] then []
    else FromClientInAll(events[..|events| - 1], k, client) + FromClientIn(events[|events| - 1], k, client)
  }

  function CountArrivals(events: seq<Event>): nat {
    if events == [] then 0
    else CountArrivals(events[..|events| - 1]) + (if events[|events| - 1].Arrival? then 1 else 0)
  }

  /** The datagram begins with a QUIC packet that opens a connection. */
  ghost predicate Opens(e: Event) {
    e.Arrival? && FirstPacket(e.buf).Ok?
  }

  /** Whether an idle timeout has passed since a connection was last heard of, if ever. */
  ghost predicate HasExpired(heard: Option<Time>, now: Time) {
    heard.None? || Since(now, heard.value) >= IDLE_TIMEOUT
  }

  /**
   When connection `k` was last heard of: the latest of its datagrams that could open it, or that
   came before it had expired.
   */
  ghost function LastHeard(events: seq<Event>, times: seq<Time>, k: ConnId): Option<Time>
    requires |times| == |events|
  {
    if events == [] then None
    else
      var n := |events| - 1;
      var heard := LastHeard(events[..n], times[..n], k);
      if IsOf(events[n], k) && (Opens(events[n]) || !HasExpired(heard, times[n])) then Some(times[n]) else heard
  }

  lemma HeardOnce(events: seq<Event>, times: seq<Time>, e: Event, now: Time, k: ConnId)
    requires |times| == |events|
    ensures LastHeard(events + [e], times + [now], k) ==
            var heard := LastHeard(events, times, k);
            if IsOf(e, k) && (Opens(e) || !HasExpired(heard, now)) then Some(now) else heard
  {
    assert (events + [e])[..|events|] == events && (times + [now])[..|times|] == times;
  }

  /** A connection that has not expired by `now` is there, and was accessed no earlier than it was heard of. */
  ghost predicate IsKept(heard: Option<Time>, access: Option<Time>, now: Time) {
    HasExpired(heard, now) || (access.Some? && heard.value <= access.value)
  }

  /** A datagram leaves its connection known exactly if it was before, or it begins with an Initial. */
  lemma InitialIsKnown(buf: Bytes, known: bool, handshaked: bool, fromClient: bool)
    requires buf != []
    ensures Consume(buf, known, handshaked, fromClient).known <==> known || FirstPacket(buf).Ok?
    ensures Consume(buf, known, handshaked, fromClient).error == None ==> known || FirstPacket(buf).Ok?
  {
    hide FirstPacket;
    PiecesTile(buf, known, handshaked, fromClient);
    if !known && FirstPacket(buf).Ok? {
      var n := FirstPacket(buf).value;
      PiecesTile(buf[n..], true, false, fromClient);
      ConsumeUnfolds(buf, known, handshaked, fromClient);
    }
  }

  /** When the events took place that these readings of the clock belong to. */
  ghost function TimesAt(ticks: nat -> Time, at: seq<nat>): (times: seq<Time>)
    ensures |times| == |at| && forall i :: 0 <= i < |at| ==> times[i] == ticks(at[i])
  {
    seq(|at|, i requires 0 <= i < |at| => ticks(at[i]))
  }

  lemma NoTimes(ticks: nat -> Time)
    ensures TimesAt(ticks, []) == []
  {
  }

  lemma OneMoreTime(ticks: nat -> Time, at: seq<nat>, n: nat)
    ensures TimesAt(ticks, at + [n]) == TimesAt(ticks, at) + [ticks(n)]
  {
  }

  /**
   The stream of a client holds exactly its datagrams since one of them, which opened the
   connection when it had not been heard of before, or had expired.
   */
  ghost predicate IsStreamOf(arrived: seq<Bytes>, events: seq<Event>, times: seq<Time>, k: ConnId, client: Addr)
    requires |times| == |events|
  {
    exists m :: 0 <= m < |events| && IsOpening(events, times, k, client, m) &&
      arrived == FromClientInAll(events[m..], k, client)
  }

  /** Event `m` can have opened connection `k` for this client: it begins with an Initial, and no live one was there. */
  ghost predicate IsOpening(events: seq<Event>, times: seq<Time>, k: ConnId, client: Addr, m: int)
    requires |times| == |events| && 0 <= m < |events|
  {
    && IsFromClientOf(events[m], k, client) && Opens(events[m])
    && HasExpired(LastHeard(events[..m], times[..m], k), times[m])
  }

  lemma StreamStarts(events: seq<Event>, times: seq<Time>, e: Event, now: Time, k: ConnId, client: Addr)
    requires |times| == |events| && IsFromClientOf(e, k, client) && Opens(e)
    requires HasExpired(LastHeard(events, times, k), now)
    ensures IsStreamOf([e.buf], events + [e], times + [now], k, client)
  {
    hide LastHeard, Opens;
    var all, m := events + [e], |events|;
    assert all[..m] == events && (times + [now])[..m] == times;
    assert IsOpening(all, times + [now], k, client, m);
    assert all[m..] == [e] && [e][..0] == [];
    assert [e.buf] == FromClientInAll(all[m..], k, client);
  }

  lemma StreamGoesOn(
    arrived: seq<Bytes>, events: seq<Event>, times: seq<Time>, e: Event, now: Time, k: ConnId, client: Addr)
    requires |times| == |events| && IsStreamOf(arrived, events, times, k, client)
    ensures IsStreamOf(arrived + FromClientIn(e, k, client), events + [e], times + [now], k, client)
  {
    hide IsFromClientOf, LastHeard, Opens;
    var all := events + [e];
    var m :| 0 <= m < |events| && IsOpening(events, times, k, client, m) &&
      arrived == FromClientInAll(events[m..], k, client);
    assert all[..m] == events[..m] && (times + [now])[..m] == times[..m];
    assert IsOpening(all, times + [now], k, client, m);
    assert all[m..] == events[m..] + [e] && (events[m..] + [e])[..|events| - m] == events[m..];
  }

  /**
   Any run of the event loop, for as long as it lasts: every connection lookup succeeds, no
   task outlives its event, retransmissions stay within their limit, also when the program
   stops. Every connection heard of within the last idle timeout is there and has the whole stream
   of its client since it was opened. The program stops only for a cause that the event at which it stops
   and its last state show. Event `i` takes place at reading `at[i]` of the clock.
   */
  method Run(events: seq<Event>, ticks: nat -> Time, interval: Duration, end: Duration)
    returns (p: Pemi, handled: nat, ghost at: seq<nat>)
    requires Ticking(ticks)
    requires forall i :: 0 <= i < |events| && events[i].Arrival? ==> events[i].buf != []
    ensures handled <= |events| && fresh(p) && p.Valid() && p.OwnsAll()
    ensures WithinLimit(p.retransPkts, p.pkts) && |p.resent| == p.retransPkts
    ensures p.pkts == CountArrivals(if handled < |events| then events[..handled + 1] else events)
    ensures handled < |events| ==> p.Blames(events[handled])
    ensures |at| == handled && forall i, j :: 0 <= i < j < |at| ==> at[i] < at[j]
    ensures handled == |events| ==> p.retransTasks == []
    ensures handled == |events| ==> p.StreamsOf(events, TimesAt(ticks, at)) && p.KeptAlive(events, TimesAt(ticks, at))
    ensures forall k :: k in p.conns ==> IsPassage(p.Stream(k), p.Out(k))
  {
    p := new Pemi(ticks(0), interval, end);
    handled, at := p.HandleAll(events, ticks);
    p.CountersAreBounded();
    p.AllArePassed();
  }

  lemma OneMoreArrival(events: seq<Event>, e: Event)
    ensures CountArrivals(events + [e]) == CountArrivals(events) + (if e.Arrival? then 1 else 0)
  {
    assert (events + [e])[..|events|] == events;
  }

  // ---------------------------------------------------------------- two runs that show limits

  /**
   One idle timeout is not the bound. A connection opened at `t` and accessed once, 60 seconds
   later, is entered again by the sweep after 120 seconds, and survives the sweep after 239,
   though idle for 179.
   */
  method IdleConnectionSurvives(t: Time) returns (p: Pemi, id: ConnId)
    ensures p.Valid() && p.clock == t + 239_000_000_000.0 && id in p.conns
    ensures Since(p.clock, p.conns[id].lastAccess) == 179_000_000_000.0 > IDLE_TIMEOUT
  {
    hide Pemi.Sound, Conn.Valid;
    p, id := AccessedOnce(t);
    p.RemoveIdleConns(t + 120_000_000_000.0);
    assert forall e :: e in p.accessTimes ==> e.time == t + 120_000_000_000.0;
    p.RemoveIdleConns(t + 239_000_000_000.0);
  }

  /** A connection opened at `t` and accessed 60 seconds later. */
  method AccessedOnce(t: Time) returns (p: Pemi, id: ConnId)
    ensures fresh(p) && p.Valid() && p.OwnsAll() && p.clock == t + 60_000_000_000.0 && p.retransTasks == []
    ensures id in p.conns && p.conns[id].lastAccess == p.clock && p.accessTimes == [AccessTime(t, id)]
  {
    hide Pemi.Sound, Conn.Valid;
    p := new Pemi(t, 2.0, 2.0);
    id := ConnIdOf(1, 2);
    var c := new Conn(t, 1, 2);
    p.NewConn(id, c, t, 0);
    var _ := p.TrackHandshake([0], id, t + 60_000_000_000.0, 1, 0);
  }

  /**
   A connection opened by a datagram that is then turned away: the first datagram of its server
   stops the program, since no datagram of its client was accepted.
   */
  method FirstServerDatagramStops(client: Addr, server: Addr, opening: Bytes, answer: Bytes, t: Time, u: Time)
    returns (first: Outcome, second: Outcome)
    requires client != server && opening != [] && answer != [] && t <= u
    requires var c := Consume(opening, false, false, true); c.known && c.error == Some(InvalidState)
    requires Consume(answer, true, false, false).error == None
    ensures first == PassedOn && second == Stopped
  {
    hide Pemi.Sound, Conn.Valid, Consume, Pemi.ConnsAfter, Pemi.HistoriesAfter, Pemi.OutcomeOf, Pemi.Settled;
    var id := ConnIdOf(client, server);
    var p := new Pemi(t, 2.0, 2.0);
    p.NothingHappened();
    p.OutcomeByError(opening, id, client, WithinPace);
    label Start:
    first := p.ProcessPacket(opening, t, client, server, WithinPace, true);
    p.OpenedOnly@Start(opening, id, client, t);
    p.StopsNext(id, server, answer);
    second := p.ProcessPacket(answer, u, server, client, WithinPace, true);
  }
}
