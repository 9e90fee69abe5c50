/**
 One proxied connection (`pemi/src/conn.rs`) and the retransmission tasks drawn from it
 (`pemi/src/retrans.rs`). The congestion controller's verdict on each datagram, and whether
 traffic to the client dominates, are inputs.
 */
module Connections {
  import opened Base
  import opened Flowlets
  import opened QueueModel
  import opened PacketQueues
  import opened Reordering
  import opened Octets
  import opened QuicHeader
  import opened Coalesced

  /** A socket address; only its identity and its order matter. */
  type Addr = nat

  datatype ConnId = ConnId(lo: Addr, hi: Addr)

  /** `ConnId::new`. */
  function ConnIdOf(a: Addr, b: Addr): ConnId {
    if a < b then ConnId(a, b) else ConnId(b, a)
  }

  /** Both directions of a connection share one ID, and no other pair of addresses does. */
  lemma ConnIdIdentifiesPair(a: Addr, b: Addr, c: Addr, d: Addr)
    ensures ConnIdOf(a, b) == ConnIdOf(c, d) <==> (a == c && b == d) || (a == d && b == c)
  {
  }

  /** 120 seconds. */
  const IDLE_TIMEOUT: Duration := 120_000_000_000.0

  /** kPacketThreshold of section 6.1.1 and kTimeThreshold of section 6.1.2 of RFC 9002. */
  const PACKET_THRESHOLD: nat := 3
  const TIME_THRESHOLD: real := 1.125

  /** kGranularity: one millisecond. */
  const GRANULARITY: Duration := 1_000_000.0

  datatype DelayedAck = DelayedAck(forwardTs: Time, payload: Bytes, e2eRtt: Duration)

  ghost function Payloads(acks: seq<DelayedAck>): (p: seq<Bytes>)
    ensures |p| == |acks| && forall k :: 0 <= k < |p| ==> p[k] == acks[k].payload
  {
    seq(|acks|, k requires 0 <= k < |acks| => acks[k].payload)
  }

  lemma PayloadsOfFront(acks: seq<DelayedAck>)
    requires acks != []
    ensures Payloads(acks)[|acks| - 1] == acks[|acks| - 1].payload
    ensures Payloads(acks)[..|acks| - 1] == Payloads(acks[..|acks| - 1])
  {
  }

  lemma PayloadsAppend(acks: seq<DelayedAck>, ack: DelayedAck)
    ensures Payloads(acks + [ack]) == Payloads(acks) + [ack.payload]
  {
  }

  lemma OneBlock(b: Block)
    requires b.TailFirst? && 2 <= |b.items| <= MAX_WAITING + 1
    ensures WellCut([b])
  {
  }

  lemma CutOne(blocks: seq<Block>, payload: Bytes)
    requires WellCut(blocks)
    ensures var b := InOrder([payload]);
            && WellCut(blocks + [b])
            && ArrivalStream(blocks + [b]) == ArrivalStream(blocks) + [payload]
            && SentStream(blocks + [b]) == SentStream(blocks) + [payload]
  {
    AppendBlock(blocks, InOrder([payload]));
  }

  /** Cutting off all that waits, to be sent tail first. */
  lemma CutTailFirst(blocks: seq<Block>, acks: seq<DelayedAck>)
    requires WellCut(blocks) && 2 <= |acks| <= MAX_WAITING + 1
    ensures var b := TailFirst(Payloads(acks));
            && WellCut(blocks + [b])
            && ArrivalStream(blocks + [b]) == ArrivalStream(blocks) + Payloads(acks)
            && SentStream(blocks + [b]) ==
               SentStream(blocks) + [acks[|acks| - 1].payload] + Payloads(acks[..|acks| - 1])
  {
    hide WellCut, ArrivalStream, SentStream, Payloads;
    var b := TailFirst(Payloads(acks));
    OneBlock(b);
    AppendBlock(blocks, b);
    PayloadsOfFront(acks);
  }

  /**
   How a connection protects its client: both RTTs, the queue, every loss declared so far, and
   whether the server sends too fast.
   */
  datatype Protection = Protection(
    clientRtt: Duration, serverRtt: Duration, packets: seq<Packet>, flowlets: seq<Flowlet>, log: seq<Datagram>,
    overspeed: bool)

  ghost const UNPROTECTED: Protection := Protection(0.0, 0.0, [], [], [], false)

  /** The protection after these flowlets, the first of the queue, are completed with RTT `rtt`. */
  ghost function WithCompleted(
    p: Protection, rtt: Duration, done: seq<Flowlet>, left: seq<Flowlet>, threshold: nat): Protection
    requires Span(done) <= |p.packets|
  {
    Protection(SmoothedRtt(rtt, CompletedSamples(p.packets, done, rtt)), p.serverRtt, p.packets[Span(done)..], left,
               p.log + CompletedLoss(p.packets, done, rtt, threshold), p.overspeed)
  }

  /** The client RTT after these samples. */
  ghost function SmoothedRtt(rtt: Duration, samples: seq<Duration>): Duration {
    if samples == [] then rtt
    else
      var before := SmoothedRtt(rtt, samples[..|samples| - 1]);
      var s := samples[|samples| - 1];
      if before == 0.0 then s else before * 0.875 + s * 0.125
  }

  /** No queued packet is older than this, and one is this old. */
  ghost predicate IsGreatestAge(age: Duration, q: PacketQueue, now: Time)
    reads q`packets
  {
    && (exists p :: p in q.packets && Since(now, p.Timestamp()) == age)
    && forall p :: p in q.packets ==> Since(now, p.Timestamp()) <= age
  }

  lemma OldestIsFirst(q: PacketQueue, now: Time)
    requires q.Valid() && q.packets != []
    ensures IsGreatestAge(Since(now, q.packets[0].Timestamp()), q, now)
  {
    hide Partitions, Separated, IsHistory, IsLossLog, Quiet;
    assert q.packets[0] in q.packets;
    assert QueueModel.InOrder(q.packets, q.processed, q.clock);
  }

  /** Overspeed, since `begin`, has lasted more than one end-to-end RTT. */
  predicate IsPersistent(acks: seq<DelayedAck>, begin: Time, now: Time)
    requires acks != []
  {
    Since(now, begin) > acks[0].e2eRtt
  }

  /** Enough datagrams wait, or the first has waited long enough, for a reordering to be noticed. */
  predicate IsDue(acks: seq<DelayedAck>, begin: Time, now: Time)
    requires acks != []
  {
    var packets := if IsPersistent(acks, begin, now) then PACKET_THRESHOLD * 2 else PACKET_THRESHOLD;
    var factor := if IsPersistent(acks, begin, now) then 1.0 + (TIME_THRESHOLD - 1.0) * 2.0 else TIME_THRESHOLD;
    || |acks| > packets
    || Since(now, acks[0].forwardTs) > MaxReal(acks[0].e2eRtt * factor, GRANULARITY)
  }

  /** `retrans::Task`: detected losses on their way to be sent again. */
  datatype Task = Task(src: Addr, dst: Addr, queue: seq<Datagram>)

  /** `Task::from_queue`: empties the loss queue; the losses are kept only when worth sending. */
  method TaskFromQueue(q: PacketQueue, src: Addr, dst: Addr, protect: bool, overspeed: bool)
    returns (task: Option<Task>)
    requires q.Valid()
    modifies q`detectedLoss, q`drained
    ensures q.Valid() && q.detectedLoss == [] && q.drained == old(q.drained) + old(q.detectedLoss)
    ensures task == if old(q.detectedLoss) != [] && protect && !overspeed
                    then Some(Task(src, dst, old(q.detectedLoss))) else None
    ensures q.Load() == old(q.Load()) - |old(q.detectedLoss)|
  {
    hide IsSound, Quiet, RawCount;
    if !q.HaveRetransmit() {
      return None;
    }
    var queue := [];
    while q.detectedLoss != []
      invariant q.Valid()
      invariant queue + q.detectedLoss == old(q.detectedLoss) && q.drained == old(q.drained) + queue
      invariant q.Load() == old(q.Load()) - |queue|
      decreases |q.detectedLoss|
    {
      var d := q.PopRetransmitFront();
      queue := queue + [d.value];
    }
    assert queue == old(q.detectedLoss);
    task := if !protect || overspeed then None else Some(Task(src, dst, queue));
  }

  /** The number of the latest of these datagrams, zero if there is none. */
  ghost function LastNumber(log: seq<Datagram>): nat {
    if log == [] then 0 else log[|log| - 1].number
  }

  /**
   What the middlebox sees of a connection. `load` bounds the retransmissions it can still cause;
   `added` is what was queued to the client, `resent` the number of the latest datagram sent
   again, and `drained` the losses handed over.
   */
  datatype View = ConnView(client: Addr, server: Addr, lastAccess: Time, clock: Time, load: nat,
                           added: seq<Packet>, resent: nat, drained: seq<Datagram>)

  /** These losses are originals, in order, handed over, and none of them was sent again yet. */
  ghost predicate CanResend(v: View, losses: seq<Datagram>) {
    && IsLossLog(losses, v.added, |v.added|)
    && forall i :: 0 <= i < |losses| ==> v.resent < losses[i].number && losses[i] in v.drained
  }

  /** Where the client's datagrams are: those sent on to the server, in that order, and those that wait. */
  datatype Outgoing = Outgoing(sent: seq<Bytes>, waiting: seq<DelayedAck>)

  /** What waits was looked at; the server has been too fast since `begin`, if it is. */
  ghost function Looked(o: Outgoing, begin: Option<Time>, now: Time): Outgoing {
    var n := |o.waiting| - 1;
    if n < 0 then o
    else if begin.None? then Outgoing(o.sent + Payloads(o.waiting), [])
    else if n > 0 && IsDue(o.waiting, begin.value, now) then
      Outgoing(o.sent + [o.waiting[n].payload] + Payloads(o.waiting[..n]), [])
    else o
  }

  /** A datagram came from the client, to wait if the server has been too fast since `begin`. */
  ghost function Taken(o: Outgoing, ack: DelayedAck, begin: Option<Time>): Outgoing {
    if begin.None? then o.(sent := o.sent + [ack.payload])
    else Looked(o.(waiting := o.waiting + [ack]), begin, ack.forwardTs)
  }

  /**
   What a connection has seen: its client's datagrams and where they are, the packets queued to the client,
   how many datagrams of the client were accepted, and the losses handed over to be sent again.
   */
  datatype History = ConnHistory(
    arrived: seq<Bytes>, out: Outgoing, queued: seq<Packet>, accepted: nat, handed: seq<Datagram>)

  ghost const NOTHING_SEEN: History := ConnHistory([], Outgoing([], []), [], 0, [])

  ghost function Arrived(h: History, fromClient: bool, ack: DelayedAck, begin: Option<Time>): History {
    if fromClient then h.(arrived := h.arrived + [ack.payload], out := Taken(h.out, ack, begin)) else h
  }

  ghost function Counted(h: History, fromClient: bool, now: Time, buf: Bytes): History {
    if fromClient then h.(accepted := h.accepted + 1)
    else h.(queued := h.queued + [Raw(Datagram(|h.queued| + 1, now, buf))])
  }

  ghost function Delivered(h: History, fromClient: bool, now: Time, buf: Bytes, begin: Option<Time>): History {
    Counted(h, fromClient, now, buf).(out := Looked(h.out, begin, now))
  }

  /**
   Under what circumstances a datagram comes: the end-to-end RTT, since when the server has been too fast
   before it and after it, and whether the handshake is over.
   */
  datatype Regime = Regime(rtt: Duration, before: Option<Time>, after: Option<Time>, handshaked: bool)

  /** The history after a datagram, which may not be accepted. */
  ghost function After(h: History, fromClient: bool, accepted: bool, now: Time, buf: Bytes, g: Regime): History {
    var ack := DelayedAck(now, buf, g.rtt);
    if accepted then
      Delivered(Arrived(h, fromClient, ack, if g.handshaked then g.before else None), fromClient, now, buf, g.after)
    else Arrived(h, fromClient, ack, None)
  }

  lemma SentThenDelivered(h: History, fromClient: bool, now: Time, buf: Bytes, g: Regime)
    ensures After(h, fromClient, true, now, buf, g) ==
            Delivered(Arrived(h, fromClient, DelayedAck(now, buf, g.rtt), if g.handshaked then g.before else None),
                      fromClient, now, buf, g.after)
  {
  }

  /**
   Where the client's datagrams are after one more: unless the server has been too fast since `held`, it is
   the last one sent. Else it waits behind the others, and if they are due now, all are sent, it first.
   */
  ghost predicate ClientDatagramGoes(before: Outgoing, after: Outgoing, ack: DelayedAck, held: Option<Time>) {
    var acks := before.waiting + [ack];
    if held.None? then after == Outgoing(before.sent + [ack.payload], before.waiting)
    else if |acks| >= 2 && IsDue(acks, held.value, ack.forwardTs) then
      after == Outgoing(before.sent + [ack.payload] + Payloads(before.waiting), [])
    else after == Outgoing(before.sent, acks)
  }

  /**
   Where they are after a server datagram, `begin` telling since when the server has now been too fast: what
   waits is sent in order if it is not, tail first if it is and they are due, and else keeps waiting.
   */
  ghost predicate ServerDatagramMoves(before: Outgoing, after: Outgoing, begin: Option<Time>, now: Time) {
    var acks := before.waiting;
    if begin.None? then after == Outgoing(before.sent + Payloads(acks), [])
    else if |acks| >= 2 && IsDue(acks, begin.value, now) then
      after == Outgoing(before.sent + [acks[|acks| - 1].payload] + Payloads(acks[..|acks| - 1]), [])
    else after == before
  }

  /** More than three wait, or the first for more than 9/8 of its RTT; twice that once overspeed has lasted. */
  lemma DueExactly(acks: seq<DelayedAck>, begin: Time, now: Time)
    requires acks != []
    ensures var waited, rtt := Since(now, acks[0].forwardTs), acks[0].e2eRtt;
            IsDue(acks, begin, now) <==>
            if now <= begin + rtt then |acks| > 3 || (8.0 * waited > 9.0 * rtt && waited > 1_000_000.0)
            else |acks| > 6 || (4.0 * waited > 5.0 * rtt && waited > 1_000_000.0)
  {
  }

  lemma ClientGoesAsTaken(o: Outgoing, ack: DelayedAck, begin: Option<Time>)
    requires o.waiting != [] ==> begin.Some?
    ensures ClientDatagramGoes(o, Taken(o, ack, begin), ack, begin)
    ensures Looked(Taken(o, ack, begin), begin, ack.forwardTs) == Taken(o, ack, begin)
  {
    hide IsDue;
    var acks := o.waiting + [ack];
    assert acks[..|o.waiting|] == o.waiting && acks[|o.waiting|] == ack;
  }

  /** What a datagram does to them. */
  lemma AfterGoes(h: History, fromClient: bool, accepted: bool, now: Time, buf: Bytes, g: Regime)
    requires h.out.waiting != [] ==> g.before.Some? && g.handshaked && accepted
    requires fromClient ==> g.after == g.before
    ensures var after := After(h, fromClient, accepted, now, buf, g).out;
            if fromClient then
              ClientDatagramGoes(h.out, after, DelayedAck(now, buf, g.rtt),
                                 if accepted && g.handshaked then g.before else None)
            else if accepted then ServerDatagramMoves(h.out, after, g.after, now) else after == h.out
  {
    hide IsDue;
    var ack, held := DelayedAck(now, buf, g.rtt), if accepted && g.handshaked then g.before else None;
    if fromClient {
      ClientGoesAsTaken(h.out, ack, held);
      if accepted && !g.handshaked {
        assert h.out.waiting == [] && Taken(h.out, ack, None).waiting == [];
      }
    } else if accepted && h.out.waiting == [] {
      assert Payloads([]) == [] && h.out.sent + [] == h.out.sent;
    }
  }

  /** What a datagram does to arrivals and counts, whatever the circumstances. */
  lemma AfterArrivals(h: History, fromClient: bool, accepted: bool, now: Time, buf: Bytes, g: Regime)
    ensures var r := After(h, fromClient, accepted, now, buf, g);
            && r.arrived == h.arrived + (if fromClient then [buf] else []) && r.handed == h.handed
            && r.accepted == h.accepted + (if fromClient && accepted then 1 else 0)
            && r.queued == h.queued +
                 (if !fromClient && accepted then [Raw(Datagram(|h.queued| + 1, now, buf))] else [])
  {
  }

  lemma NoSamples(rtt: Duration)
    ensures SmoothedRtt(rtt, []) == rtt
  {
  }

  /** An RTT that was measured stays above zero. */
  lemma {:induction false} SmoothedStaysPositive(rtt: Duration, samples: seq<Duration>)
    requires rtt > 0.0
    ensures SmoothedRtt(rtt, samples) > 0.0
    decreases |samples|
  {
    if samples != [] {
      SmoothedStaysPositive(rtt, samples[..|samples| - 1]);
    }
  }

  /** Equal samples take the RTT to their value: each leaves seven eighths of the distance. */
  lemma {:induction false} SmoothedConverges(rtt: Duration, samples: seq<Duration>, s: Duration)
    requires forall k :: 0 <= k < |samples| ==> samples[k] == s
    ensures rtt > 0.0 ==> SmoothedRtt(rtt, samples) - s == Power(0.875, |samples|) * (rtt - s)
    ensures rtt == 0.0 && samples != [] ==> SmoothedRtt(rtt, samples) == s
    decreases |samples|
  {
    if samples != [] {
      var n := |samples| - 1;
      SmoothedConverges(rtt, samples[..n], s);
      if rtt > 0.0 {
        SmoothedStaysPositive(rtt, samples[..n]);
        var before := SmoothedRtt(rtt, samples[..n]);
        assert SmoothedRtt(rtt, samples) - s == 0.875 * (before - s);
        assert 0.875 * (Power(0.875, n) * (rtt - s)) == Power(0.875, n + 1) * (rtt - s);
      }
    }
  }

  lemma EmptyStream()
    ensures IsLossLog([], [], 0) && WellCut([]) && ArrivalStream([]) == [] && SentStream([]) == [] && Payloads([]) == []
  {
  }

  lemma MoreLosses(drained: seq<Datagram>, pending: seq<Datagram>, losses: seq<Datagram>)
    ensures drained + (pending + losses) == (drained + pending) + losses
  {
  }

  lemma QueueHasGrown(q: Contents, p: Packet, newFlowlet: bool)
    requires newFlowlet || q.flowlets != []
    ensures var r := WithPacket(q, p, newFlowlet);
            r.added == q.added + [p] && r.packets == q.packets + [p] && r.log == q.log
  {
  }

  /** A packet more in the queue changes nothing for what was sent again. */
  lemma MoreAdded(log: seq<Datagram>, added: seq<Packet>, p: Packet)
    requires IsLossLog(log, added, |added|)
    ensures IsLossLog(log, added + [p], |added + [p]|)
  {
  }

  /** Declared losses come after those handed over before. */
  lemma LossesComeLater(drained: seq<Datagram>, losses: seq<Datagram>, added: seq<Packet>)
    requires IsLossLog(drained + losses, added, |added|)
    ensures IsLossLog(losses, added, |added|) && LastNumber(drained) <= LastNumber(drained + losses)
    ensures forall i :: 0 <= i < |losses| ==> LastNumber(drained) < losses[i].number
  {
    var log := drained + losses;
    assert forall i :: 0 <= i < |losses| ==> losses[i] == log[|drained| + i];
    assert drained != [] ==> drained[|drained| - 1] == log[|drained| - 1];
  }

  /** So they can be sent again. */
  lemma LossesCanBeResent(v: View, losses: seq<Datagram>)
    requires IsLossLog(v.drained + losses, v.added, |v.added|) && v.resent <= LastNumber(v.drained)
    ensures LastNumber(v.drained) <= LastNumber(v.drained + losses)
    ensures forall n :: CanResend(v.(load := n, drained := v.drained + losses), losses)
  {
    hide IsLossLog, LastNumber;
    LossesComeLater(v.drained, losses, v.added);
  }

  /** A loss handed over has at most the number of the latest. */
  lemma HandedOverBefore(drained: seq<Datagram>, more: seq<Datagram>, added: seq<Packet>, d: Datagram)
    requires IsLossLog(drained + more, added, |added|) && d in drained
    ensures d.number <= LastNumber(drained)
  {
    var i :| 0 <= i < |drained| && drained[i] == d;
    assert (drained + more)[i] == d && (drained + more)[|drained| - 1] == drained[|drained| - 1];
  }

  class Conn {
    const clientAddr: Addr
    const serverAddr: Addr
    const toServerQueue: PacketQueue
    const toClientQueue: PacketQueue
    var handshaked: bool
    var lastAccess: Time
    var clientRtt: Duration
    var serverRtt: Duration
    var toServerCount: nat
    var overspeed: bool
    var overspeedBegin: Option<Time>
    var delayed: seq<DelayedAck>
    var lastCalibration: Time

    /** The client's datagrams sent on to the server. */
    var forwarded: seq<Bytes>

    /** The client's datagrams as they arrived, how they were cut up for sending, and the latest event. */
    ghost var arrived: seq<Bytes>
    ghost var blocks: seq<Block>
    ghost var clock: Time

    /** The datagrams sent to the client a second time. */
    ghost var resent: seq<Datagram>

    /** The client RTT was once measured, calibrated or used as zero. */
    ghost var zeroRtt: bool

    ghost function Repr(): set<object> {
      {this, toServerQueue, toClientQueue}
    }

    /** The factors of both queues are these. */
    ghost predicate HasFactors(interval: Duration, end: Duration)
      reads toServerQueue`intervalFactor, toServerQueue`endFactor, toClientQueue`intervalFactor, toClientQueue`endFactor
    {
      && toServerQueue.intervalFactor == toClientQueue.intervalFactor == interval
      && toServerQueue.endFactor == toClientQueue.endFactor == end
    }

    /** No factor has changed. */
    twostate predicate SameFactors()
      reads toServerQueue`intervalFactor, toServerQueue`endFactor, toClientQueue`intervalFactor, toClientQueue`endFactor
    {
      && unchanged(toServerQueue`intervalFactor) && unchanged(toServerQueue`endFactor)
      && unchanged(toClientQueue`intervalFactor) && unchanged(toClientQueue`endFactor)
    }

    /** What the middlebox keeps account of. */
    ghost function View(): View
      reads this, toClientQueue
    {
      ConnView(clientAddr, serverAddr, lastAccess, clock, toClientQueue.Load(),
               toClientQueue.added, LastNumber(resent), toClientQueue.drained)
    }

    ghost function Out(): Outgoing
      reads `forwarded, `delayed
    {
      Outgoing(forwarded, delayed)
    }

    /** The circumstances of a datagram from `src`; `fast` is the congestion controller's verdict on it. */
    ghost function RegimeAt(now: Time, src: Addr, fast: bool, seen: bool): Regime
      reads `clientRtt, `serverRtt, `overspeedBegin
    {
      Regime(clientRtt + serverRtt, overspeedBegin, BeginAfter(now, src, fast), seen)
    }

    ghost function BeginAfter(now: Time, src: Addr, fast: bool): Option<Time>
      reads `clientRtt, `overspeedBegin
    {
      if IsFromClient(src) || clientRtt == 0.0 || (fast && overspeedBegin.Some?) then overspeedBegin
      else if fast then Some(now) else None
    }

    ghost function Seen(): History
      reads `arrived, `forwarded, `delayed, `toServerCount, toClientQueue`added, toClientQueue`drained
    {
      ConnHistory(arrived, Out(), toClientQueue.added, toServerCount, toClientQueue.drained)
    }

    ghost function Protected(): Protection
      reads `clientRtt, `serverRtt, `overspeed, toClientQueue
    {
      Protection(clientRtt, serverRtt, toClientQueue.packets, toClientQueue.flowlets, toClientQueue.Now().log,
                 overspeed)
    }

    /** The protection after a client datagram at `now`, which is taken as a reply unless it fits no flowlet. */
    ghost function AfterReplyAt(now: Time): Protection
      reads `clientRtt, `serverRtt, `overspeed, `toServerCount, toClientQueue
    {
      var q, p, rtt := toClientQueue, Protected(), FirstClientRtt(now);
      if q.Rejects(now, rtt) then p.(clientRtt := rtt)
      else
        var c := Target(p.flowlets, now - rtt);
        var a := Answer(p.flowlets, c, now, toServerCount + 1);
        var n := CompletedBy(p.flowlets, c, FLOWLET_MAX_PKTS);
        if Span(a[..n]) <= |p.packets| then WithCompleted(p, rtt, a[..n], a[n..], q.elicitingThreshold) else p
    }

    /** The protection after a server datagram at `now`: it joins the queue, perhaps in a new flowlet. */
    ghost function AfterDataAt(now: Time, buf: Bytes, fast: bool): Protection
      reads `clientRtt, `serverRtt, `overspeed, toServerQueue, toClientQueue
    {
      var q, p := toClientQueue, Protected();
      var packet := Raw(Datagram(|q.added| + 1, now, buf));
      var timeout := Scale(q.SmoothedWith(now), q.intervalFactor);
      var isNew := p.packets == [] || p.flowlets == [] ||
                   Since(now, p.packets[|p.packets| - 1].Timestamp()) > timeout;
      p.(serverRtt := FirstServerRtt(now), overspeed := if clientRtt == 0.0 then overspeed else fast,
         packets := p.packets + [packet],
         flowlets := if isNew then p.flowlets + [Flowlet.New(packet.Number(), now)] else ExtendLast(p.flowlets, packet))
    }

    ghost function NextProtected(now: Time, src: Addr, buf: Bytes, fast: bool): Protection
      reads `clientRtt, `serverRtt, `overspeed, `toServerCount, toServerQueue, toClientQueue
    {
      if IsFromClient(src) then AfterReplyAt(now) else AfterDataAt(now, buf, fast)
    }

    /** The protection after a timer at `now`: what is past its deadline is completed, once the RTT is known. */
    ghost function AfterTimerAt(now: Time): Protection
      reads `clientRtt, `serverRtt, `overspeed, toClientQueue
    {
      var q, p := toClientQueue, Protected();
      var k := ExpiredPrefix(p.flowlets, now, q.EndTimeout(clientRtt));
      if clientRtt != 0.0 && Span(p.flowlets[..k]) <= |p.packets|
      then WithCompleted(p, clientRtt, p.flowlets[..k], p.flowlets[k..], q.elicitingThreshold) else p
    }

    /** The protection after a calibration at `now`: if the estimate is far off, the answered flowlet is forgotten. */
    ghost function AfterCalibrationAt(now: Time, sample: Duration): Protection
      reads `clientRtt, `serverRtt, `overspeed, `lastCalibration, toClientQueue
    {
      var p := Protected();
      if !Deviates(now, sample) then p
      else if p.flowlets != [] && p.flowlets[0].replyTimes != [] && |p.flowlets[0].numbers| <= |p.packets| then
        p.(clientRtt := sample, packets := p.packets[|p.flowlets[0].numbers|..], flowlets := p.flowlets[1..])
      else p.(clientRtt := sample)
    }

    ghost predicate QueuesOk()
      reads `clock, `lastAccess, `serverRtt, `toServerCount, `resent, toServerQueue, toClientQueue
    {
      && toClientQueue != toServerQueue
      && toClientQueue.Valid() && toServerQueue.Valid()
      && toClientQueue.clock <= clock && toServerQueue.clock <= clock && lastAccess <= clock
      && (clientAddr == serverAddr ==> toClientQueue.added == [])
      && ResendsOk() && ServerSideOk()
    }

    /** What was sent again are originals that were handed over as lost, in order, each once. */
    ghost predicate ResendsOk()
      reads `resent, toClientQueue`added, toClientQueue`drained
    {
      && IsLossLog(resent, toClientQueue.added, |toClientQueue.added|)
      && LastNumber(resent) <= LastNumber(toClientQueue.drained)
      && forall i :: 0 <= i < |resent| ==> resent[i] in toClientQueue.drained
    }

    /** While the server RTT is unknown, every client datagram accepted is there to measure it from. */
    ghost predicate ServerSideOk()
      reads `serverRtt, `toServerCount, toServerQueue
    {
      && toServerQueue.packets == toServerQueue.added
      && (serverRtt == 0.0 ==> |toServerQueue.packets| == toServerCount)
      && (serverRtt != 0.0 ==> toServerCount > 0)
    }

    /** Then there are packets to measure the client RTT from, unless it was zero before. */
    ghost predicate ClientSideOk()
      reads `clientRtt, `serverRtt, `zeroRtt, toClientQueue`packets
    {
      clientRtt == 0.0 && serverRtt != 0.0 && toClientQueue.packets == [] ==> zeroRtt
    }

    /** Each arrived datagram was sent once, in its block, or still waits; at most `most` wait. */
    ghost predicate StreamOk(most: nat)
      reads `delayed, `handshaked, `overspeed, `overspeedBegin, `blocks, `arrived, `forwarded
    {
      && |delayed| <= most
      && (delayed != [] ==> handshaked)
      && (overspeed <==> overspeedBegin.Some?)
      && WellCut(blocks)
      && arrived == ArrivalStream(blocks) + Payloads(delayed)
      && forwarded == SentStream(blocks)
    }

    /** Between events: at most six datagrams wait, and only while the server sends too fast. */
    ghost predicate AtRest()
      reads `delayed, `handshaked, `overspeed, `overspeedBegin, `blocks, `arrived, `forwarded
    {
      StreamOk(MAX_WAITING) && (delayed != [] ==> overspeed)
    }

    ghost predicate Valid()
      reads this, toServerQueue, toClientQueue
    {
      QueuesOk() && ClientSideOk() && AtRest()
    }

    constructor (now: Time, src: Addr, dst: Addr)
      ensures clientAddr == src && serverAddr == dst
      ensures lastAccess == now && clock == now && !handshaked && Seen() == NOTHING_SEEN
      ensures toClientQueue.Load() == 0 && Protected() == UNPROTECTED && resent == [] && lastCalibration == now
      ensures overspeedBegin == None
      ensures toClientQueue.Pace() == Pacing(1_000_000.0, now, 1, 2.0, 2.0) && toServerQueue.added == []
      ensures fresh(Repr()) && Valid()
    {
      hide IsSound, Quiet, PacketQueue.Load, IsLossLog, WellCut, ArrivalStream, SentStream, Payloads;
      EmptyStream();
      clientAddr, serverAddr := src, dst;
      toServerQueue := new PacketQueue(now);
      toClientQueue := new PacketQueue(now);
      handshaked, lastAccess, clientRtt, serverRtt := false, now, 0.0, 0.0;
      toServerCount, overspeed, overspeedBegin, delayed := 0, false, None, [];
      lastCalibration, forwarded := now, [];
      arrived, blocks, clock, resent, zeroRtt := [], [], now, [], false;
      new;
      assert toClientQueue.Now().log == [] && toServerQueue.packets == toServerQueue.added == [];
      assert ResendsOk() && ServerSideOk();
      assert StreamOk(MAX_WAITING);
      hide ResendsOk, ServerSideOk, StreamOk;
    }

    /** `set_factors`. */
    method SetFactors(interval: Duration, end: Duration)
      requires Valid()
      modifies toServerQueue`intervalFactor, toServerQueue`endFactor,
        toClientQueue`intervalFactor, toClientQueue`endFactor
      ensures Valid() && View() == old(View()) && Seen() == old(Seen()) && Protected() == old(Protected())
      ensures HasFactors(interval, end)
    {
      hide IsSound, Quiet, RawCount, WellCut, ArrivalStream, SentStream;
      toServerQueue.SetFactors(interval, end);
      toClientQueue.SetFactors(interval, end);
    }

    predicate IsFromClient(src: Addr) {
      src == clientAddr
    }

    predicate IsIdle(now: Time)
      reads `lastAccess
    {
      Since(now, lastAccess) >= IDLE_TIMEOUT
    }

    // -------------------------------------------------------------- delayed acknowledgements

    /** `need_reorder_ack`. */
    predicate NeedReorderAck(src: Addr)
      reads this
    {
      overspeed && IsFromClient(src) && handshaked
    }

    /** The stream after what waited, `acks`, was looked at: sent in order, or tail first, or kept. */
    ghost predicate Checked(acks: seq<DelayedAck>, was: seq<Block>, now: Time)
      reads this
    {
      && (overspeed ==> overspeedBegin.Some?)
      && blocks == was + (
           if acks == [] then []
           else if !overspeed then [InOrder(Payloads(acks))]
           else if |acks| >= 2 && IsDue(acks, overspeedBegin.value, now) then [TailFirst(Payloads(acks))]
           else [])
      && delayed == if |blocks| > |was| then [] else acks
    }

    /** A client datagram that the middlebox sends on at once. */
    method ForwardDirectly(payload: Bytes)
      requires AtRest() && delayed == []
      modifies `forwarded, `arrived, `blocks
      ensures AtRest() && Out() == Outgoing(old(forwarded) + [payload], []) && arrived == old(arrived) + [payload]
      ensures blocks == old(blocks) + [InOrder([payload])]
    {
      hide WellCut, ArrivalStream, SentStream;
      CutOne(blocks, payload);
      assert Payloads(delayed) == [];
      forwarded := forwarded + [payload];
      arrived := arrived + [payload];
      blocks := blocks + [InOrder([payload])];
    }

    /** What the middlebox does first with a datagram: a client datagram may be delayed. */
    method SendOn(now: Time, src: Addr, payload: Bytes)
      requires Valid()
      modifies `delayed, `forwarded, `arrived, `blocks
      ensures Valid() && View() == old(View())
      ensures Seen() == Arrived(old(Seen()), IsFromClient(src), DelayedAck(now, payload, clientRtt + serverRtt),
                                if handshaked then overspeedBegin else None)
      ensures if NeedReorderAck(src) then
                Checked(old(delayed) + [DelayedAck(now, payload, clientRtt + serverRtt)], old(blocks), now)
              else
                && delayed == old(delayed)
                && blocks == old(blocks) + (if IsFromClient(src) then [InOrder([payload])] else [])
    {
      hide WellCut, ArrivalStream, SentStream, Payloads, Conn.Checked, QueuesOk, ClientSideOk, PacketQueue.Load, Looked,
        LastNumber;
      if NeedReorderAck(src) {
        AddDelayedAck(now, payload);
      } else if IsFromClient(src) {
        ForwardDirectly(payload);
      }
    }

    /** A datagram that could not be parsed is sent on at once; nothing waits before the handshake. */
    method SendUnparsed(now: Time, src: Addr, payload: Bytes)
      requires Valid() && !handshaked
      modifies `delayed, `forwarded, `arrived, `blocks
      ensures Valid() && View() == old(View())
      ensures Seen() == Arrived(old(Seen()), IsFromClient(src), DelayedAck(now, payload, clientRtt + serverRtt), None)
    {
      hide WellCut, ArrivalStream, SentStream, Payloads, QueuesOk, ClientSideOk, PacketQueue.Load, Looked, LastNumber;
      if IsFromClient(src) {
        ForwardDirectly(payload);
      }
    }

    /** `add_delayed_ack`. */
    method AddDelayedAck(now: Time, payload: Bytes)
      requires AtRest() && overspeed && handshaked
      modifies `delayed, `forwarded, `arrived, `blocks
      ensures AtRest() && arrived == old(arrived) + [payload]
      ensures Out() == Taken(old(Out()), DelayedAck(now, payload, clientRtt + serverRtt), overspeedBegin)
      ensures Checked(old(delayed) + [DelayedAck(now, payload, clientRtt + serverRtt)], old(blocks), now)
    {
      hide WellCut, ArrivalStream, SentStream, Conn.Checked, Looked;
      var ack := DelayedAck(now, payload, clientRtt + serverRtt);
      PayloadsAppend(delayed, ack);
      hide Payloads;
      delayed := delayed + [ack];
      arrived := arrived + [payload];
      CheckDelayedAcks(now);
    }

    /** `check_delayed_acks`: what waits is sent in order, or tail first, or keeps waiting. */
    method CheckDelayedAcks(now: Time)
      requires StreamOk(MAX_WAITING + 1)
      modifies `delayed, `forwarded, `blocks
      ensures AtRest() && Checked(old(delayed), old(blocks), now) && Out() == Looked(old(Out()), overspeedBegin, now)
    {
      hide WellCut, ArrivalStream, SentStream, Payloads, IsDue;
      if delayed == [] {
        return;
      }
      if !overspeed {
        FlushInOrder();
        return;
      }
      if |delayed| < 2 {
        return;
      }
      DueExactly(delayed, overspeedBegin.value, now);
      if IsDue(delayed, overspeedBegin.value, now) {
        FlushTailFirst();
      }
    }

    method FlushInOrder()
      requires StreamOk(MAX_WAITING + 1) && delayed != []
      modifies `delayed, `forwarded, `blocks
      ensures StreamOk(0) && blocks == old(blocks) + [InOrder(Payloads(old(delayed)))]
      ensures forwarded == old(forwarded) + Payloads(old(delayed))
    {
      ghost var b := InOrder(Payloads(delayed));
      AppendBlock(blocks, b);
      SendAll();
      blocks := blocks + [b];
    }

    method FlushTailFirst()
      requires StreamOk(MAX_WAITING + 1) && |delayed| >= 2
      modifies `delayed, `forwarded, `blocks
      ensures StreamOk(0) && blocks == old(blocks) + [TailFirst(Payloads(old(delayed)))]
      ensures var n := |old(delayed)| - 1;
              forwarded == old(forwarded) + [old(delayed)[n].payload] + Payloads(old(delayed)[..n])
    {
      hide WellCut, ArrivalStream, SentStream, Payloads;
      CutTailFirst(blocks, delayed);
      ghost var b := TailFirst(Payloads(delayed));
      var tail := delayed[|delayed| - 1];
      delayed := delayed[..|delayed| - 1];
      forwarded := forwarded + [tail.payload];
      SendAll();
      blocks := blocks + [b];
      assert Payloads([]) == [];
    }

    /** Sends what waits, front to back. */
    method SendAll()
      modifies `delayed, `forwarded
      ensures delayed == [] && forwarded == old(forwarded) + Payloads(old(delayed))
    {
      ghost var all, k := Payloads(delayed), 0;
      while delayed != []
        invariant 0 <= k <= |all| && delayed == old(delayed)[k..]
        invariant forwarded == old(forwarded) + all[..k]
        decreases |delayed|
      {
        forwarded := forwarded + [delayed[0].payload];
        delayed := delayed[1..];
        k := k + 1;
      }
    }

    // -------------------------------------------------------------- datagrams

    /** `update_client_rtt` for each sample in turn. */
    method UpdateClientRtt(samples: seq<Duration>)
      modifies `clientRtt
      ensures clientRtt == SmoothedRtt(old(clientRtt), samples)
    {
      for k := 0 to |samples|
        invariant clientRtt == SmoothedRtt(old(clientRtt), samples[..k])
      {
        assert samples[..k + 1][..k] == samples[..k];
        clientRtt := if clientRtt == 0.0 then samples[k] else clientRtt * 0.875 + samples[k] * 0.125;
      }
      assert samples[..|samples|] == samples;
    }

    /** The original stops: no packet to measure a first RTT from, or a queue grown too long. */
    predicate Stops(src: Addr)
      reads `clientRtt, `serverRtt, toServerQueue, toClientQueue
    {
      if IsFromClient(src) then
        || (clientRtt == 0.0 && serverRtt != 0.0 && toClientQueue.packets == [])
        || (serverRtt == 0.0 && |toServerQueue.packets| > MAX_QUEUED)
      else
        || (serverRtt == 0.0 && toServerQueue.packets == [])
        || |toClientQueue.packets| > MAX_QUEUED
    }

    /**
     `process_udp_packet` on a datagram that has been sent on or delayed; `fast` is the
     congestion controller's verdict.
     */
    method ProcessUdpPacket(now: Time, src: Addr, buf: Bytes, fast: bool)
      returns (newFlowlet: bool, ghost samples: Option<seq<Duration>>, ghost target: nat)
      requires Valid() && now >= clock && (src == clientAddr || src == serverAddr) && !Stops(src)
      modifies this, toServerQueue, toClientQueue
      ensures Valid() && clock == now
      ensures overspeedBegin == old(BeginAfter(now, src, fast))
      ensures Seen() == Delivered(old(Seen()), IsFromClient(src), now, buf, overspeedBegin)
      ensures lastAccess == old(lastAccess) && lastCalibration == old(lastCalibration)
      ensures handshaked == old(handshaked) && resent == old(resent)
      ensures Checked(old(delayed), old(blocks), now)
      ensures Protected() == old(NextProtected(now, src, buf, fast))
      ensures if IsFromClient(src) then AfterClient(now, buf, newFlowlet, samples, target)
              else AfterServer(now, buf, fast, newFlowlet)
      ensures toClientQueue.Load() <= old(toClientQueue.Load()) + (if IsFromClient(src) then 0 else 1)
      ensures SameFactors()
    {
      hide AtRest, StreamOk, QueuesOk, ClientSideOk, Conn.Checked, Conn.AfterClient, Conn.AfterServer, PacketQueue.Load,
        Conn.Protected, Conn.AfterReplyAt, Conn.AfterDataAt, Looked;
      FlagIsDated();
      if IsFromClient(src) {
        newFlowlet := false;
        samples, target := TakeFromClient(now, src, buf);
      } else {
        samples, target := None, 0;
        newFlowlet := TakeFromServer(now, src, buf, fast);
      }
      KeepsStream();
      CheckDelayedAcks(now);
    }

    method TakeFromClient(now: Time, src: Addr, buf: Bytes)
      returns (ghost samples: Option<seq<Duration>>, ghost target: nat)
      requires QueuesOk() && now >= clock && !Stops(src) && IsFromClient(src)
      modifies toServerQueue, toClientQueue, `toServerCount, `clientRtt, `serverRtt, `zeroRtt, `clock
      ensures QueuesOk() && ClientSideOk() && clock == now && Seen() == Counted(old(Seen()), true, now, buf)
      ensures AfterClient(now, buf, false, samples, target) && Protected() == old(AfterReplyAt(now))
      ensures overspeedBegin == old(overspeedBegin)
      ensures toClientQueue.Load() <= old(toClientQueue.Load())
      ensures SameFactors()
    {
      hide PacketQueue.Valid, SmoothedRtt, IsTarget, PacketQueue.AfterReply, PacketQueue.Rejects, IsLossLog,
        PacketQueue.GivenTo, PacketQueue.Load, LastNumber, Conn.Protected, Conn.AfterReplyAt, PacketQueue.Pace,
        ResendsOk, IsGreatestAge;
      clock := now;
      MeasureFirstRtt(now, src);
      samples, target := ProcessClientPacket(now, buf);
      ReplyProtects(now, samples, target);
    }

    /** What a reply does to the queue is determined by the queue and the RTTs. */
    twostate lemma ReplyProtects(new now: Time, new samples: Option<seq<Duration>>, new target: nat)
      requires toClientQueue.ReplyChecked(now, toServerCount, old(FirstClientRtt(now)), samples, target)
      requires clientRtt == SmoothedRtt(old(FirstClientRtt(now)), if samples.Some? then samples.value else [])
      requires serverRtt == old(serverRtt) && overspeed == old(overspeed) && toServerCount == old(toServerCount) + 1
      requires toClientQueue.drained == old(toClientQueue.drained) && toClientQueue.Pace() == old(toClientQueue.Pace())
      ensures Protected() == old(AfterReplyAt(now))
    {
      hide IsTarget, Target, SmoothedRtt, CompletedLoss, CompletedSamples, Span, PacketQueue.Rejects,
        PacketQueue.GivenTo;
      var q, rtt := toClientQueue, old(FirstClientRtt(now));
      if samples.None? {
        NoSamples(rtt);
      } else {
        FitsSomeFlowlet(now, rtt);
        TargetIsUnique(old(q.flowlets), now - rtt, target);
        var a := Answer(old(q.flowlets), target, now, toServerCount);
        var n := CompletedBy(old(q.flowlets), target, FLOWLET_MAX_PKTS);
        MoreLosses(q.drained, old(q.detectedLoss), CompletedLoss(old(q.packets), a[..n], rtt, q.elicitingThreshold));
      }
    }

    twostate lemma FitsSomeFlowlet(new now: Time, new rtt: Duration)
      requires !old(toClientQueue.Rejects(now, rtt))
      ensures old(toClientQueue.flowlets) != []
    {
    }

    method TakeFromServer(now: Time, src: Addr, buf: Bytes, fast: bool) returns (newFlowlet: bool)
      requires QueuesOk() && now >= clock && !Stops(src) && !IsFromClient(src) && clientAddr != serverAddr
      requires overspeed <==> overspeedBegin.Some?
      modifies toClientQueue, `clientRtt, `serverRtt, `zeroRtt, `clock, `overspeed, `overspeedBegin
      ensures QueuesOk() && ClientSideOk() && clock == now && Seen() == Counted(old(Seen()), false, now, buf)
      ensures AfterServer(now, buf, fast, newFlowlet) && (overspeed <==> overspeedBegin.Some?)
      ensures overspeedBegin == old(BeginAfter(now, src, fast))
      ensures Protected() == old(AfterDataAt(now, buf, fast))
      ensures toClientQueue.Load() <= old(toClientQueue.Load()) + 1
      ensures SameFactors()
    {
      hide PacketQueue.Valid, IsLossLog, Scale, Conn.Protected, Conn.AfterDataAt, PacketQueue.Load, WithPacket,
        PacketQueue.Pace, PacketQueue.PaceWith, LastNumber, ResendsOk, ServerSideOk, ClientSideOk, IsGreatestAge;
      clock := now;
      MeasureFirstRtt(now, src);
      newFlowlet := ProcessServerPacket(now, buf, fast);
      DataProtects(now, buf, fast, newFlowlet);
    }

    /** What a server datagram does to the queue is determined by the queue. */
    twostate lemma DataProtects(new now: Time, new buf: Bytes, new fast: bool, new newFlowlet: bool)
      requires DataQueued(now, buf, newFlowlet) && overspeed == if clientRtt == 0.0 then old(overspeed) else fast
      requires serverRtt == old(FirstServerRtt(now)) && clientRtt == old(clientRtt)
      ensures Protected() == old(AfterDataAt(now, buf, fast))
    {
      hide Scale;
    }

    /**
     What a client datagram does: it is queued while the server RTT is unknown, and is a reply,
     whose RTT samples are smoothed into the client RTT.
     */
    twostate predicate AfterClient(
      now: Time, buf: Bytes, newFlowlet: bool, new samples: Option<seq<Duration>>, target: nat)
      reads `serverRtt, `clientRtt, `overspeed, `overspeedBegin, `toServerCount, `zeroRtt, toServerQueue, toClientQueue
    {
      && !newFlowlet && serverRtt == old(serverRtt)
      && overspeed == old(overspeed) && overspeedBegin == old(overspeedBegin)
      && toServerQueue.added == old(toServerQueue.added) +
           (if serverRtt == 0.0 then [Raw(Datagram(|old(toServerQueue.added)| + 1, now, buf))] else [])
      && toClientQueue.ReplyChecked(now, toServerCount, old(FirstClientRtt(now)), samples, target)
      && clientRtt == SmoothedRtt(old(FirstClientRtt(now)), if samples.Some? then samples.value else [])
      && toClientQueue.Pace() == old(toClientQueue.Pace())
      && zeroRtt == (old(zeroRtt) || (old(clientRtt) == 0.0 && serverRtt != 0.0 && old(FirstClientRtt(now)) == 0.0))
    }

    /** What a server datagram does: it may be the first to measure the server RTT from, and is judged. */
    twostate predicate AfterServer(now: Time, buf: Bytes, fast: bool, newFlowlet: bool)
      reads `serverRtt, `clientRtt, `overspeed, `overspeedBegin, `zeroRtt, toServerQueue, toClientQueue
    {
      && serverRtt == old(FirstServerRtt(now)) && clientRtt == old(clientRtt) && zeroRtt == old(zeroRtt)
      && (if clientRtt == 0.0 then overspeed == old(overspeed) && overspeedBegin == old(overspeedBegin)
          else SpeedJudged(fast, old(overspeedBegin), now))
      && toServerQueue.added == old(toServerQueue.added) && DataQueued(now, buf, newFlowlet)
    }

    /** The datagram was added to the queue to the client, in a new flowlet if the gap before it is too large. */
    twostate predicate DataQueued(now: Time, buf: Bytes, newFlowlet: bool)
      reads toClientQueue
    {
      var q := toClientQueue;
      && newFlowlet == (old(q.packets) == [] ||
           Since(now, old(q.packets)[|old(q.packets)| - 1].Timestamp()) >
           Scale(old(q.SmoothedWith(now)), old(q.intervalFactor)))
      && (newFlowlet || old(q.flowlets) != [])
      && q.Now() == WithPacket(old(q.Now()), Raw(Datagram(|old(q.added)| + 1, now, buf)), newFlowlet)
      && q.Pace() == old(q.PaceWith(now, |q.added| + 1))
    }

    /** The server RTT, measured from the oldest packet sent to the server if there is none yet. */
    function FirstServerRtt(now: Time): Duration
      reads `serverRtt, toServerQueue
    {
      if serverRtt == 0.0 && toServerQueue.packets != []
      then Since(now, toServerQueue.packets[0].Timestamp()) else serverRtt
    }

    /** The client RTT, measured from the oldest packet sent to the client if there is none yet. */
    function FirstClientRtt(now: Time): Duration
      reads `clientRtt, `serverRtt, toClientQueue
    {
      if clientRtt == 0.0 && serverRtt != 0.0 && toClientQueue.packets != []
      then Since(now, toClientQueue.packets[0].Timestamp()) else clientRtt
    }

    /** The first RTT on each side is the age of the oldest packet sent there. */
    method MeasureFirstRtt(now: Time, src: Addr)
      requires QueuesOk() && !Stops(src)
      modifies `clientRtt, `serverRtt, `zeroRtt
      ensures QueuesOk()
      ensures clientRtt == if IsFromClient(src) then old(FirstClientRtt(now)) else old(clientRtt)
      ensures serverRtt == if IsFromClient(src) then old(serverRtt) else old(FirstServerRtt(now))
      ensures IsFromClient(src) && old(clientRtt) == 0.0 && serverRtt != 0.0 ==>
                IsGreatestAge(clientRtt, toClientQueue, now)
      ensures !IsFromClient(src) && old(serverRtt) == 0.0 ==> IsGreatestAge(serverRtt, toServerQueue, now)
      ensures zeroRtt ==
              (old(zeroRtt) || (IsFromClient(src) && old(clientRtt) == 0.0 && serverRtt != 0.0 && clientRtt == 0.0))
    {
      if IsFromClient(src) {
        if clientRtt == 0.0 && serverRtt != 0.0 {
          OldestIsFirst(toClientQueue, now);
          clientRtt := Since(now, toClientQueue.packets[0].Timestamp());
          zeroRtt := zeroRtt || clientRtt == 0.0;
        }
      } else {
        if serverRtt == 0.0 {
          OldestIsFirst(toServerQueue, now);
          serverRtt := Since(now, toServerQueue.packets[0].Timestamp());
        }
      }
    }

    lemma FlagIsDated()
      requires AtRest()
      ensures overspeed <==> overspeedBegin.Some?
    {
    }

    /** Only the overspeed flag bears on the stream of client datagrams. */
    twostate lemma KeepsStream()
      requires old(AtRest()) && (overspeed <==> overspeedBegin.Some?)
      requires unchanged(`delayed) && unchanged(`handshaked) && unchanged(`blocks)
      requires unchanged(`arrived) && unchanged(`forwarded)
      ensures StreamOk(MAX_WAITING + 1)
    {
    }

    /** A client datagram is a reply to packets sent to the client. */
    method ProcessClientPacket(now: Time, buf: Bytes)
      returns (ghost samples: Option<seq<Duration>>, ghost target: nat)
      requires QueuesOk() && clock == now
      requires serverRtt == 0.0 ==> |toServerQueue.packets| <= MAX_QUEUED
      requires clientRtt == 0.0 && serverRtt != 0.0 ==> zeroRtt
      modifies toServerQueue, toClientQueue, `toServerCount, `clientRtt
      ensures QueuesOk() && ClientSideOk()
      ensures toClientQueue.added == old(toClientQueue.added) && toClientQueue.drained == old(toClientQueue.drained)
      ensures toClientQueue.Pace() == old(toClientQueue.Pace())
      ensures toServerQueue.added == old(toServerQueue.added) +
                (if serverRtt == 0.0 then [Raw(Datagram(|old(toServerQueue.added)| + 1, now, buf))] else [])
      ensures toServerCount == old(toServerCount) + 1
      ensures toClientQueue.ReplyChecked(now, toServerCount, old(clientRtt), samples, target)
      ensures clientRtt == SmoothedRtt(old(clientRtt), if samples.Some? then samples.value else [])
      ensures toClientQueue.Load() <= old(toClientQueue.Load())
      ensures SameFactors()
    {
      hide PacketQueue.Valid, IsTarget, IsLossLog, SmoothedRtt, LastNumber, PacketQueue.Load, PacketQueue.AfterReply,
        PacketQueue.Rejects, PacketQueue.GivenTo;
      QueueForRtt(now, buf);
      toServerCount := toServerCount + 1;
      var got;
      got, target := toClientQueue.CheckReply(now, toServerCount, clientRtt);
      samples := got;
      ghost var all := if got.Some? then got.value else [];
      NoSamples(clientRtt);
      if clientRtt > 0.0 {
        SmoothedStaysPositive(clientRtt, all);
      }
      if got.Some? {
        UpdateClientRtt(got.value);
      }
    }

    /** A client datagram is queued only for the first server RTT. */
    method QueueForRtt(now: Time, buf: Bytes)
      requires toServerQueue.Valid() && toServerQueue.packets == toServerQueue.added && now >= toServerQueue.clock
      requires serverRtt == 0.0 ==> |toServerQueue.packets| <= MAX_QUEUED
      modifies toServerQueue
      ensures toServerQueue.Valid() && toServerQueue.packets == toServerQueue.added && toServerQueue.clock <= now
      ensures toServerQueue.added == old(toServerQueue.added) +
                (if serverRtt == 0.0 then [Raw(Datagram(|old(toServerQueue.added)| + 1, now, buf))] else [])
      ensures SameFactors()
    {
      hide IsSound, Quiet, RawCount;
      ProcessedCountsAdded(toServerQueue.Now());
      if serverRtt == 0.0 {
        var number, isNew := toServerQueue.Add(now, Some(buf));
        assert toServerQueue.Now().added == old(toServerQueue.added) + [Raw(Datagram(number, now, buf))];
        assert toServerQueue.Now().packets == old(toServerQueue.packets) + [Raw(Datagram(number, now, buf))];
      }
    }

    /** The overspeed flag after a verdict; it is dated by the first of a row of verdicts. */
    ghost predicate SpeedJudged(fast: bool, began: Option<Time>, now: Time)
      reads `overspeed, `overspeedBegin
    {
      overspeed == fast && overspeedBegin == if !fast then None else if began.Some? then began else Some(now)
    }

    /** A server datagram is judged and queued for protection. */
    method ProcessServerPacket(now: Time, buf: Bytes, fast: bool) returns (newFlowlet: bool)
      requires QueuesOk() && clock == now && |toClientQueue.packets| <= MAX_QUEUED
      requires (overspeed <==> overspeedBegin.Some?) && clientAddr != serverAddr
      modifies toClientQueue, `overspeed, `overspeedBegin
      ensures QueuesOk() && ClientSideOk() && (overspeed <==> overspeedBegin.Some?)
      ensures if clientRtt == 0.0 then overspeed == old(overspeed) && overspeedBegin == old(overspeedBegin)
              else SpeedJudged(fast, old(overspeedBegin), now)
      ensures DataQueued(now, buf, newFlowlet) && toClientQueue.drained == old(toClientQueue.drained)
      ensures toClientQueue.added ==
              old(toClientQueue.added) + [Raw(Datagram(|old(toClientQueue.added)| + 1, now, buf))]
      ensures toClientQueue.Load() == old(toClientQueue.Load()) + 1
      ensures SameFactors()
    {
      hide PacketQueue.Valid, ServerSideOk, IsLossLog, LastNumber, PacketQueue.Load, PacketQueue.Pace, WithPacket;
      newFlowlet := QueueData(now, buf);
      MoreAdded(resent, old(toClientQueue.added), Raw(Datagram(|old(toClientQueue.added)| + 1, now, buf)));
      QueueHasGrown(old(toClientQueue.Now()), Raw(Datagram(|old(toClientQueue.added)| + 1, now, buf)), newFlowlet);
      JudgeSpeed(fast, now);
    }

    /** The overspeed flag follows the controller's verdict, once the client RTT is known. */
    method JudgeSpeed(fast: bool, now: Time)
      requires overspeed <==> overspeedBegin.Some?
      modifies `overspeed, `overspeedBegin
      ensures if clientRtt == 0.0 then overspeed == old(overspeed) && overspeedBegin == old(overspeedBegin)
              else SpeedJudged(fast, old(overspeedBegin), now)
    {
      if clientRtt != 0.0 {
        overspeed := fast;
        if overspeed {
          if overspeedBegin.None? {
            overspeedBegin := Some(now);
          }
        } else if overspeedBegin.Some? {
          overspeedBegin := None;
        }
      }
    }

    method QueueData(now: Time, buf: Bytes) returns (newFlowlet: bool)
      requires toClientQueue.Valid() && now >= toClientQueue.clock && |toClientQueue.packets| <= MAX_QUEUED
      modifies toClientQueue
      ensures toClientQueue.Valid() && toClientQueue.clock == now
      ensures DataQueued(now, buf, newFlowlet) && toClientQueue.drained == old(toClientQueue.drained)
      ensures toClientQueue.Load() == old(toClientQueue.Load()) + 1
      ensures SameFactors()
    {
      hide IsSound, Quiet, Scale, PacketQueue.Load;
      ProcessedCountsAdded(toClientQueue.Now());
      var number;
      number, newFlowlet := toClientQueue.Add(now, Some(buf));
    }

    // -------------------------------------------------------------- parsing

    /** `first_quic_packet`: a new connection, and how much of the datagram its first packet takes. */
    static method FirstQuicPacket(now: Time, src: Addr, dst: Addr, buf: Bytes)
      returns (r: Result<(Conn, nat), ParseError>)
      ensures r.Err? ==> FirstPacket(buf) == Err(r.error)
      ensures r.Ok? ==> FirstPacket(buf) == Ok(r.value.1)
      ensures r.Ok? ==> var c := r.value.0;
                && c.Valid() && fresh(c.Repr()) && c.clientAddr == src && c.serverAddr == dst
                && c.lastAccess == now && c.clock == now && !c.handshaked && c.Seen() == NOTHING_SEEN
                && c.toClientQueue.Load() == 0 && c.Protected() == UNPROTECTED && c.resent == []
                && c.overspeedBegin == None
    {
      hide ParseHeader;
      var b := new Cursor(buf);
      var h := FromBytes(b, 0);
      if h.Err? {
        return Err(h.error);
      }
      if h.value.ty != Initial {
        return Err(MayNotQuic);
      }
      var n := SkipPayload(b, h.value.length);
      if n.Err? {
        return Err(n.error);
      }
      var c := new Conn(now, src, dst);
      r := Ok((c, n.value));
    }

    /** `process_quic_packet`: tracks the handshake; afterwards nothing is parsed. */
    method ProcessQuicPacket(now: Time, buf: Bytes, src: Addr) returns (r: Result<nat, ParseError>)
      requires Valid() && now >= clock && buf != []
      modifies `lastAccess, `handshaked, `clock
      ensures Valid() && lastAccess == now && clock == now && (old(handshaked) ==> handshaked)
      ensures r.Err? ==> FollowingPacket(buf, old(handshaked), IsFromClient(src)) == Err(r.error)
      ensures r.Err? && r.error in {MayNotQuic, InvalidState} ==> handshaked == old(handshaked)
      ensures r.Ok? ==> FollowingPacket(buf, old(handshaked), IsFromClient(src)) == Ok((r.value, handshaked))
    {
      hide FollowingPacket, IsSound, Quiet, ServerSideOk, ResendsOk, ClientSideOk, ArrivalStream, SentStream, WellCut;
      clock, lastAccess := now, now;
      if handshaked {
        HandshakedTakesAll(buf, IsFromClient(src));
        r := Ok(|buf|);
      } else {
        var seen;
        r, seen := ReadFollowing(buf, IsFromClient(src));
        if seen {
          handshaked := true;
        }
      }
    }

    /** Parses a packet while waiting for the handshake; `seen` is set even if the payload is cut short. */
    static method ReadFollowing(buf: Bytes, fromClient: bool) returns (r: Result<nat, ParseError>, seen: bool)
      requires buf != []
      ensures r.Err? ==> FollowingPacket(buf, false, fromClient) == Err(r.error)
      ensures r.Err? && r.error in {MayNotQuic, InvalidState} ==> !seen
      ensures r.Ok? ==> FollowingPacket(buf, false, fromClient) == Ok((r.value, seen))
    {
      hide ParseHeader;
      var b := new Cursor(buf);
      var h := FromBytes(b, 0);
      if h.Err? {
        return Err(h.error), false;
      }
      seen := h.value.ty == Handshake;
      if seen && fromClient {
        return Err(Panicked), seen;
      }
      r := SkipPayload(b, h.value.length);
    }

    /** Skips a packet's payload, and the padding after it, if any. */
    static method SkipPayload(b: Cursor, length: nat) returns (r: Result<nat, ParseError>)
      requires b.Valid() && b.off > 0
      modifies b`off
      ensures r == Extent(b.buf, length, old(b.Rest()))
    {
      var skipped := b.Skip(length);
      if skipped.Err? {
        return Err(TooShort);
      }
      if b.Cap() > 0 {
        var first := b.PeekU8();
        if first.value == 0 {
          return Ok(|b.buf|);
        }
      }
      r := Ok(b.off);
    }

    // -------------------------------------------------------------- timers and retransmission

    /** `timeout`: none before the client RTT is known. */
    method Timeout(now: Time) returns (left: Option<Duration>)
      requires Valid()
      ensures left.Some? <==> clientRtt != 0.0 && toClientQueue.flowlets != []
      ensures left.Some? ==> forall i :: 0 <= i < |toClientQueue.flowlets| ==>
                left.value <= Since(toClientQueue.flowlets[i].end + toClientQueue.EndTimeout(clientRtt), now)
    {
      if clientRtt == 0.0 {
        left := None;
      } else {
        left := toClientQueue.Timeout(now, clientRtt);
      }
    }

    /** `on_timeout`: the queue's timeout; its `k` expired flowlets yield RTT samples. */
    method OnTimeout(now: Time) returns (ghost samples: seq<Duration>, ghost k: nat)
      requires Valid() && now >= clock
      modifies toClientQueue, `clientRtt, `clock, `zeroRtt
      ensures Valid() && clock == now && Seen() == old(Seen())
      ensures View() == old(View()).(clock := now, load := View().load)
      ensures toClientQueue.TimedOut(now, old(clientRtt), samples, k)
      ensures clientRtt == SmoothedRtt(old(clientRtt), samples)
      ensures old(clientRtt) != 0.0 ==> Protected() == old(AfterTimerAt(now))
      ensures zeroRtt == (old(zeroRtt) || old(clientRtt) == 0.0)
      ensures toClientQueue.Load() <= old(toClientQueue.Load())
      ensures SameFactors()
    {
      hide PacketQueue.Valid, AtRest, ServerSideOk, ResendsOk, SmoothedRtt, PacketQueue.TimedOut, PacketQueue.Load,
        Conn.Protected, Conn.AfterTimerAt, LastNumber, PacketQueue.EndTimeout, IsLossLog;
      var got;
      got, k := toClientQueue.OnTimeout(now, clientRtt);
      samples := got;
      if clientRtt > 0.0 {
        SmoothedStaysPositive(clientRtt, samples);
      }
      zeroRtt := zeroRtt || clientRtt == 0.0;
      UpdateClientRtt(got);
      clock := now;
      TimerProtects(now, samples, k);
    }

    /** What a timer does to the queue is determined by the queue and the RTT. */
    twostate lemma TimerProtects(new now: Time, new samples: seq<Duration>, new k: nat)
      requires toClientQueue.TimedOut(now, old(clientRtt), samples, k)
      requires clientRtt == SmoothedRtt(old(clientRtt), samples)
      requires serverRtt == old(serverRtt) && overspeed == old(overspeed)
      requires toClientQueue.drained == old(toClientQueue.drained)
      requires toClientQueue.elicitingThreshold == old(toClientQueue.elicitingThreshold)
      ensures old(clientRtt) != 0.0 ==> Protected() == old(AfterTimerAt(now))
    {
      hide SmoothedRtt, CompletedLoss, CompletedSamples, Span, ExpiredPrefix, Expired, PacketQueue.EndTimeout,
        RightlyCompleted;
      var q := toClientQueue;
      MoreLosses(q.drained, old(q.detectedLoss),
                 CompletedLoss(old(q.packets), old(q.flowlets)[..k], old(clientRtt), q.elicitingThreshold));
    }

    /** `rtt_calibration`: a measured RTT far from the estimate resets the queue. */
    method RttCalibration(now: Time, sample: Duration)
      requires Valid() && now >= clock
      modifies toClientQueue, `clientRtt, `lastCalibration, `clock, `zeroRtt
      ensures Valid() && clock == now && Seen() == old(Seen())
      ensures View() == old(View()).(clock := now, load := View().load)
      ensures Load() <= old(Load())
      ensures lastCalibration == if old(CalibrationDue(now, sample)) then now else old(lastCalibration)
      ensures Protected() == old(AfterCalibrationAt(now, sample))
      ensures if old(Deviates(now, sample)) then toClientQueue.WasReset() && clientRtt == sample
              else clientRtt == old(clientRtt) && toClientQueue.Now() == old(toClientQueue.Now())
      ensures zeroRtt == (old(zeroRtt) || (old(Deviates(now, sample)) && sample == 0.0))
      ensures SameFactors()
    {
      hide PacketQueue.Valid, AtRest, ServerSideOk, ResendsOk, Scale, PacketQueue.Load, LastNumber, Conn.Protected,
        Conn.AfterCalibrationAt;
      clock := now;
      if Since(now, lastCalibration) >= sample + serverRtt {
        lastCalibration := now;
        var error := if sample >= clientRtt then sample - clientRtt else clientRtt - sample;
        var allowed := Scale(toClientQueue.FlowletTimeout(), toClientQueue.endFactor);
        if error > allowed {
          TakeSample(sample);
        }
      }
      CalibrationProtects(now, sample);
    }

    /** What a calibration does to the queue is determined by the queue and the RTT. */
    twostate lemma CalibrationProtects(new now: Time, new sample: Duration)
      requires if old(Deviates(now, sample)) then toClientQueue.WasReset() && clientRtt == sample
               else clientRtt == old(clientRtt) && toClientQueue.Now() == old(toClientQueue.Now())
      requires serverRtt == old(serverRtt) && overspeed == old(overspeed)
      requires toClientQueue.detectedLoss == old(toClientQueue.detectedLoss)
      requires toClientQueue.drained == old(toClientQueue.drained)
      ensures Protected() == old(AfterCalibrationAt(now, sample))
    {
      hide Conn.Deviates;
    }

    /** The reset: answered flowlets are forgotten, and the sample becomes the client RTT. */
    method TakeSample(sample: Duration)
      requires QueuesOk()
      modifies toClientQueue, `clientRtt, `zeroRtt
      ensures QueuesOk() && ClientSideOk() && clientRtt == sample && zeroRtt == (old(zeroRtt) || sample == 0.0)
      ensures toClientQueue.WasReset() && toClientQueue.detectedLoss == old(toClientQueue.detectedLoss)
      ensures toClientQueue.added == old(toClientQueue.added) && toClientQueue.drained == old(toClientQueue.drained)
      ensures toClientQueue.Load() <= old(toClientQueue.Load())
      ensures SameFactors()
    {
      hide IsSound, Quiet, ServerSideOk, ResendsOk, PacketQueue.WasReset, PacketQueue.Load;
      toClientQueue.ResetDueToRttDeviation();
      clientRtt := sample;
      zeroRtt := zeroRtt || sample == 0.0;
    }

    /** The losses handed over, and those declared since. */
    ghost function Losses(): (seq<Datagram>, seq<Datagram>)
      reads toClientQueue
    {
      (toClientQueue.drained, toClientQueue.detectedLoss)
    }

    ghost function Load(): nat
      reads this, toClientQueue
    {
      toClientQueue.Load()
    }

    /** An end-to-end RTT has passed since the last calibration. */
    predicate CalibrationDue(now: Time, sample: Duration)
      reads `lastCalibration, `serverRtt
    {
      Since(now, lastCalibration) >= sample + serverRtt
    }

    /** A calibration is due, and the estimate is too far off. */
    predicate Deviates(now: Time, sample: Duration)
      reads `lastCalibration, `serverRtt, `clientRtt, toClientQueue
    {
      && CalibrationDue(now, sample)
      && (if sample >= clientRtt then sample - clientRtt else clientRtt - sample) >
         Scale(toClientQueue.FlowletTimeout(), toClientQueue.endFactor)
    }

    /** `record_retrans_packet`: the copy is queued without its payload. */
    method RecordRetransPacket(now: Time)
      requires Valid() && now >= clock && clientAddr != serverAddr && |toClientQueue.packets| <= MAX_QUEUED
      modifies toClientQueue, `clock
      ensures Valid() && clock == now
      ensures toClientQueue.added == old(toClientQueue.added) + [Retrans(|old(toClientQueue.added)| + 1, now)]
      ensures |toClientQueue.packets| == |old(toClientQueue.packets)| + 1
      ensures Losses() == old(Losses())
      ensures View() == old(View()).(clock := now, added := toClientQueue.added)
      ensures SameFactors()
    {
      hide IsSound, Quiet, ArrivalStream, SentStream, WellCut, RawCount, IsLossLog;
      MoreAdded(resent, toClientQueue.added, Retrans(|toClientQueue.added| + 1, now));
      clock := now;
      ProcessedCountsAdded(toClientQueue.Now());
      var number, _ := toClientQueue.Add(now, None);
      assert toClientQueue.Now().added == old(toClientQueue.added) + [Retrans(number, now)];
    }

    /** Notes that a loss handed over is sent to the client again. */
    ghost method NoteResent(d: Datagram)
      requires Valid() && CanResend(View(), [d])
      modifies `resent
      ensures Valid() && resent == old(resent) + [d] && View() == old(View()).(resent := d.number)
    {
      hide IsSound, Quiet, ArrivalStream, SentStream, WellCut, RawCount;
      assert [d][0] == d;
      SoundHasLossLog(toClientQueue.Now());
      HandedOverBefore(toClientQueue.drained, toClientQueue.detectedLoss, toClientQueue.added, d);
      resent := resent + [d];
    }

    /** `to_client_retrans_task`. */
    method ToClientRetransTask(protect: bool) returns (task: Option<Task>)
      requires Valid()
      modifies toClientQueue`detectedLoss, toClientQueue`drained
      ensures Valid()
      ensures task == if old(toClientQueue.detectedLoss) != [] && protect && !overspeed
                      then Some(Task(serverAddr, clientAddr, old(toClientQueue.detectedLoss))) else None
      ensures task.Some? ==> clientAddr != serverAddr && CanResend(View(), task.value.queue)
      ensures toClientQueue.detectedLoss == [] && Protected() == old(Protected())
      ensures Seen() == old(Seen()).(handed := old(Seen()).handed + old(toClientQueue.detectedLoss))
      ensures var losses := old(toClientQueue.detectedLoss);
              View() == old(View()).(load := old(View()).load - |losses|, drained := old(View()).drained + losses)
    {
      hide IsSound, Quiet, AtRest, ServerSideOk, ClientSideOk, PacketQueue.Load, IsLossLog, CanResend, LastNumber;
      NoLossWithoutPackets(toClientQueue.Now());
      SoundHasLossLog(toClientQueue.Now());
      LossesCanBeResent(View(), toClientQueue.detectedLoss);
      task := TaskFromQueue(toClientQueue, serverAddr, clientAddr, protect, overspeed);
      assert toClientQueue.Now().log == old(toClientQueue.Now().log);
    }
  }

  lemma SameLength(from: seq<nat>, sent: seq<Bytes>, arrived: seq<Bytes>)
    requires SlightlyReordered(from, sent, arrived)
    ensures |sent| == |arrived|
  {
  }

  /** These arrivals were sent, slightly reordered, but for the last few, which wait in order. */
  ghost predicate IsPassage(arrived: seq<Bytes>, o: Outgoing) {
    && |o.sent| <= |arrived|
    && (exists from :: SlightlyReordered(from, o.sent, arrived[..|o.sent|]))
    && arrived[|o.sent|..] == Payloads(o.waiting) && |o.waiting| <= MAX_WAITING
  }

  /**
   Every client datagram was sent exactly once or still waits; those sent are the earliest
   to arrive, slightly reordered, and those that wait are the latest, in order.
   */
  lemma ClientStream(c: Conn)
    requires c.AtRest()
    ensures SlightlyReordered(Origins(c.blocks), c.forwarded, ArrivalStream(c.blocks))
    ensures IsPassage(c.arrived, c.Out())
    ensures multiset(c.forwarded) + multiset(Payloads(c.delayed)) == multiset(c.arrived)
  {
    BoundedReordering(c.blocks);
    SentIsArrival(c.blocks);
    hide WellCut, ArrivalStream, SentStream, SlightlyReordered, Origins, Payloads;
    var cut := ArrivalStream(c.blocks);
    assert |c.forwarded| == |cut| by {
      SameLength(Origins(c.blocks), c.forwarded, cut);
    }
    assert c.arrived[..|cut|] == cut && c.arrived[|cut|..] == Payloads(c.delayed);
  }

  /**
   A server datagram finds no packet to measure the server RTT from exactly when no client
   datagram of the connection was accepted before.
   */
  lemma ServerRttIsMeasurable(c: Conn)
    requires c.Valid()
    ensures c.serverRtt == 0.0 && c.toServerQueue.packets == [] <==> c.Seen().accepted == 0
  {
  }

  /**
   Exactly when a datagram stops the program. The first case of a client datagram needs a client RTT
   that was zero before.
   */
  lemma StopsExactly(c: Conn, src: Addr)
    requires c.Valid()
    ensures c.Stops(src) <==>
            if c.IsFromClient(src) then
              || (c.clientRtt == 0.0 && c.serverRtt != 0.0 && c.toClientQueue.packets == [])
              || (c.serverRtt == 0.0 && c.Seen().accepted > MAX_QUEUED)
            else c.Seen().accepted == 0 || |c.toClientQueue.packets| > MAX_QUEUED
    ensures c.clientRtt == 0.0 && c.serverRtt != 0.0 && c.toClientQueue.packets == [] ==> c.zeroRtt
  {
  }

  /** The flowlets after a timer: exactly those past their deadline are gone, once the RTT is known. */
  ghost predicate FlowletsTimedOut(
    after: seq<Flowlet>, before: seq<Flowlet>, rtt: Duration, timeout: Duration, now: Time) {
    if rtt == 0.0 then after == before
    else
      var n := |before| - |after|;
      && 0 <= n && after == before[n..]
      && forall i :: 0 <= i < |before| ==> (Expired(before[i], now, timeout) <==> i < n)
  }

  /** A timer leaves exactly the flowlets that are not past their deadline. */
  lemma TimerIsExact(c: Conn, now: Time)
    requires c.Valid()
    ensures FlowletsTimedOut(c.AfterTimerAt(now).flowlets, c.toClientQueue.flowlets, c.clientRtt,
                             c.toClientQueue.EndTimeout(c.clientRtt), now)
  {
    hide IsSound, PacketQueue.EndTimeout, Expired, ExpiredPrefix, Span, CompletedLoss, CompletedSamples, SmoothedRtt;
    QueueIsSound(c);
    hide Conn.Valid;
    var q := c.toClientQueue;
    SoundIsSeparated(q.Now());
    SpanFits(q.Now(), ExpiredPrefix(q.flowlets, now, q.EndTimeout(c.clientRtt)));
    ExpiredPrefixIsAllExpired(q.flowlets, now, q.EndTimeout(c.clientRtt));
  }

  lemma QueueIsSound(c: Conn)
    requires c.Valid()
    ensures IsSound(c.toClientQueue.Now())
  {
    hide IsSound;
  }

  /** A timer that finds nothing past its deadline, or no RTT, changes nothing. */
  lemma NothingDue(c: Conn, now: Time)
    requires c.clientRtt == 0.0 || forall i :: 0 <= i < |c.toClientQueue.flowlets| ==>
               !Expired(c.toClientQueue.flowlets[i], now, c.toClientQueue.EndTimeout(c.clientRtt))
    ensures c.AfterTimerAt(now) == c.Protected()
  {
    hide Expired, PacketQueue.EndTimeout, SmoothedRtt;
    NoSamples(c.clientRtt);
    var p := c.Protected();
    assert p.flowlets[..0] == [] && p.log + [] == p.log;
  }

  /**
   A calibration that is due leaves the client RTT within the slack of the sample, and leaves it alone if it
   was; one that is not due leaves it alone.
   */
  lemma CalibrationIsExact(c: Conn, now: Time, sample: Duration)
    ensures var rtt := c.AfterCalibrationAt(now, sample).clientRtt;
            var q := c.toClientQueue; var slack := q.smoothedInterval * q.intervalFactor * q.endFactor;
            && (now - c.lastCalibration >= sample + c.serverRtt && sample + c.serverRtt > 0.0 ==>
                  Abs(sample - rtt) <= slack && (Abs(sample - c.clientRtt) <= slack ==> rtt == c.clientRtt))
            && (now - c.lastCalibration < sample + c.serverRtt && now >= c.lastCalibration ==> rtt == c.clientRtt)
            && (rtt == c.clientRtt || rtt == sample)
  {
    var q := c.toClientQueue;
    SlackIsProduct(q);
    hide Scale;
    assert Scale(q.FlowletTimeout(), q.endFactor) >= 0.0;
  }

  lemma SlackIsProduct(q: PacketQueue)
    ensures Scale(q.FlowletTimeout(), q.endFactor) == q.smoothedInterval * q.intervalFactor * q.endFactor
  {
  }

  /** What was sent to the client again: originals from the server, in order, no one of them twice. */
  lemma ResentAtMostOnce(c: Conn, a: nat, b: nat)
    requires c.Valid() && a < b < |c.resent|
    ensures c.resent[a].number < c.resent[b].number <= |c.toClientQueue.added|
    ensures c.toClientQueue.added[c.resent[b].number - 1] == Raw(c.resent[b]) && c.resent[b] in c.toClientQueue.drained
  {
  }

  /**
   A run to the first case of `StopsExactly`: a reply arrives 100 milliseconds after the first server
   datagram, and a calibration of zero then empties the queue and resets the client RTT to zero.
   */
  method ZeroCalibrationStops(client: Addr, server: Addr) returns (c: Conn)
    requires client != server
    ensures c.Valid() && c.clientRtt == 0.0 && c.serverRtt != 0.0 && c.toClientQueue.packets == [] && c.Stops(client)
  {
    hide Conn.Valid;
    c := AnsweredOnce(client, server);
    c.RttCalibration(201_000_000.0, 0.0);
  }

  /** A connection whose only server datagram, of 1 millisecond, was answered at 101 milliseconds. */
  method AnsweredOnce(client: Addr, server: Addr) returns (c: Conn)
    requires client != server
    ensures fresh(c) && fresh(c.toClientQueue) && c.Valid() && c.clientAddr == client && c.clock == 101_000_000.0
    ensures c.clientRtt == 100_000_000.0 && c.serverRtt == 1_000_000.0 && c.lastCalibration == 0.0
    ensures c.toClientQueue.Pace() == Pacing(1_000_000.0, 1_000_000.0, 1, 2.0, 2.0)
    ensures |c.toClientQueue.packets| == 1 && |c.toClientQueue.flowlets| == 1
    ensures |c.toClientQueue.flowlets[0].numbers| == 1 && c.toClientQueue.flowlets[0].replyTimes != []
  {
    hide Conn.Valid, Conn.Stops, Conn.AfterReplyAt, Conn.AfterServer, Conn.Checked, PacketQueue.ReplyChecked;
    c := SentOnce(client, server);
    StopsExactly(c, client);
    OneReply(c, 101_000_000.0);
    var _, _, _ := c.ProcessUdpPacket(101_000_000.0, client, [3], false);
  }

  /** A connection with one client datagram and, a millisecond later, one server datagram. */
  method SentOnce(client: Addr, server: Addr) returns (c: Conn)
    requires client != server
    ensures fresh(c) && fresh(c.toServerQueue) && fresh(c.toClientQueue) && c.Valid() && c.clientAddr == client
    ensures c.clock == 1_000_000.0 && c.lastCalibration == 0.0 && c.Seen().accepted == 1
    ensures c.toClientQueue.Pace() == Pacing(1_000_000.0, 1_000_000.0, 1, 2.0, 2.0)
    ensures c.Protected() == Protection(0.0, 1_000_000.0, [Raw(Datagram(1, 1_000_000.0, [2]))],
                                        [Flowlet.New(1, 1_000_000.0)], [], false)
  {
    hide Conn.Valid, Conn.Stops, Conn.AfterReplyAt, Conn.AfterDataAt, Conn.Checked, PacketQueue.ReplyChecked;
    c := new Conn(0.0, client, server);
    StopsExactly(c, client);
    NoFlowletFits(c, 0.0);
    var _, _, _ := c.ProcessUdpPacket(0.0, client, [1], false);
    StopsExactly(c, server);
    AllQueuedToServer(c);
    assert c.toServerQueue.packets == [Raw(Datagram(1, 0.0, [1]))];
    FirstData(c, 1_000_000.0, [2]);
    var _, _, _ := c.ProcessUdpPacket(1_000_000.0, server, [2], false);
  }

  lemma AllQueuedToServer(c: Conn)
    requires c.Valid()
    ensures c.toServerQueue.packets == c.toServerQueue.added
  {
  }

  lemma NoFlowletFits(c: Conn, now: Time)
    requires c.Protected() == UNPROTECTED
    ensures c.AfterReplyAt(now) == UNPROTECTED
  {
  }

  lemma FirstData(c: Conn, now: Time, buf: Bytes)
    requires c.Protected() == UNPROTECTED && c.toClientQueue.added == []
    ensures c.AfterDataAt(now, buf, false) ==
            Protection(0.0, c.FirstServerRtt(now), [Raw(Datagram(1, now, buf))], [Flowlet.New(1, now)], [], false)
  {
  }

  /** A reply within the end timeout to the only flowlet, which is short, is given to it. */
  lemma OneReply(c: Conn, now: Time)
    requires |c.Protected().flowlets| == 1 && |c.Protected().flowlets[0].numbers| <= FLOWLET_MAX_PKTS
    requires !c.toClientQueue.Rejects(now, c.FirstClientRtt(now))
    ensures var p := c.Protected(); var fl := p.flowlets[0].AddReply(now, c.toServerCount + 1);
            c.AfterReplyAt(now) == p.(clientRtt := c.FirstClientRtt(now), flowlets := [fl])
  {
    var p, rtt := c.Protected(), c.FirstClientRtt(now);
    var a := Answer(p.flowlets, 0, now, c.toServerCount + 1);
    assert Target(p.flowlets, now - rtt) == 0 && a[..0] == [];
    NoSamples(rtt);
  }
}
