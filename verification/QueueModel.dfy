/**
 What the packet queue of `pemi/src/queue.rs` keeps, as predicates over its contents, and
 the pure facts its operations rest on.
 */
module QueueModel {
  import opened Base
  import opened Flowlets

  // ---------------------------------------------------------------- packets and flowlets

  /** Packet numbers are consecutive and end at `processed`; timestamps follow the clock. */
  ghost predicate InOrder(packets: seq<Packet>, processed: nat, clock: Time) {
    && |packets| <= processed
    && (forall k :: 0 <= k < |packets| ==> packets[k].Number() == processed - |packets| + 1 + k)
    && (forall k :: 0 <= k < |packets| ==> packets[k].Timestamp() <= clock)
    && (forall k, l :: 0 <= k < l < |packets| ==> packets[k].Timestamp() <= packets[l].Timestamp())
  }

  /** The flowlet describes exactly these packets. */
  ghost predicate Covers(fl: Flowlet, packets: seq<Packet>) {
    && |fl.numbers| == |packets| > 0
    && (forall k :: 0 <= k < |packets| ==> fl.numbers[k] == packets[k].Number())
    && fl.begin == packets[0].Timestamp()
    && fl.end == packets[|packets| - 1].Timestamp()
  }

  /** The flowlets cut the packets into consecutive non-empty blocks. */
  ghost predicate Partitions(packets: seq<Packet>, flowlets: seq<Flowlet>) {
    if flowlets == [] then packets == []
    else
      var n := |flowlets[0].numbers|;
      n <= |packets| && Covers(flowlets[0], packets[..n]) && Partitions(packets[n..], flowlets[1..])
  }

  /** All packet numbers the flowlets hold, in order. */
  ghost function AllNumbers(flowlets: seq<Flowlet>): seq<nat> {
    if flowlets == [] then [] else flowlets[0].numbers + AllNumbers(flowlets[1..])
  }

  /** The flowlets hold exactly the numbers of the queued packets, each once, in order. */
  lemma {:induction false} PartitionHoldsAllNumbers(packets: seq<Packet>, flowlets: seq<Flowlet>)
    requires Partitions(packets, flowlets)
    ensures |AllNumbers(flowlets)| == |packets|
    ensures forall k :: 0 <= k < |packets| ==> AllNumbers(flowlets)[k] == packets[k].Number()
    decreases |flowlets|
  {
    if flowlets != [] {
      var n := |flowlets[0].numbers|;
      PartitionHoldsAllNumbers(packets[n..], flowlets[1..]);
      assert forall k :: n <= k < |packets| ==> packets[k] == packets[n..][k - n];
      assert forall k :: 0 <= k < n ==> packets[k] == packets[..n][k];
    }
  }

  /** The last flowlet ends with the newest packet. */
  lemma {:induction false} LastFlowletEnds(packets: seq<Packet>, flowlets: seq<Flowlet>)
    requires Partitions(packets, flowlets)
    ensures (packets == []) == (flowlets == [])
    ensures flowlets != [] ==> flowlets[|flowlets| - 1].end == packets[|packets| - 1].Timestamp()
    decreases |flowlets|
  {
    if flowlets != [] {
      var n := |flowlets[0].numbers|;
      LastFlowletEnds(packets[n..], flowlets[1..]);
    }
  }

  lemma FrontNumbers(packets: seq<Packet>, flowlets: seq<Flowlet>)
    requires flowlets != [] && Partitions(packets, flowlets)
    ensures 0 < |flowlets[0].numbers| <= |packets|
    ensures forall k :: 0 <= k < |flowlets[0].numbers| ==> flowlets[0].numbers[k] == packets[k].Number()
  {
    var block := packets[..|flowlets[0].numbers|];
    assert forall k :: 0 <= k < |block| ==> packets[k] == block[k];
  }

  lemma {:induction false} PartitionAppendsFlowlet(packets: seq<Packet>, flowlets: seq<Flowlet>, p: Packet)
    requires Partitions(packets, flowlets)
    ensures Partitions(packets + [p], flowlets + [Flowlet.New(p.Number(), p.Timestamp())])
    decreases |flowlets|
  {
    var fl := Flowlet.New(p.Number(), p.Timestamp());
    if flowlets == [] {
      assert (packets + [p])[..1] == [p] && (packets + [p])[1..] == [];
      assert ([] + [fl])[1..] == [];
    } else {
      var n := |flowlets[0].numbers|;
      PartitionAppendsFlowlet(packets[n..], flowlets[1..], p);
      assert (packets + [p])[..n] == packets[..n] && (packets + [p])[n..] == packets[n..] + [p];
      assert (flowlets + [fl])[1..] == flowlets[1..] + [fl];
    }
  }

  ghost function ExtendLast(flowlets: seq<Flowlet>, p: Packet): seq<Flowlet>
    requires flowlets != []
  {
    flowlets[|flowlets| - 1 := flowlets[|flowlets| - 1].Add(p.Number(), p.Timestamp())]
  }

  lemma {:induction false} PartitionExtendsLast(packets: seq<Packet>, flowlets: seq<Flowlet>, p: Packet)
    requires flowlets != [] && Partitions(packets, flowlets)
    ensures Partitions(packets + [p], ExtendLast(flowlets, p))
    decreases |flowlets|
  {
    var n := |flowlets[0].numbers|;
    var grown := ExtendLast(flowlets, p);
    if |flowlets| == 1 {
      assert packets[n..] == [] && packets[..n] == packets;
      assert (packets + [p])[..n + 1] == packets + [p];
      assert (packets + [p])[n + 1..] == [] && grown[1..] == [];
    } else {
      PartitionExtendsLast(packets[n..], flowlets[1..], p);
      assert (packets + [p])[..n] == packets[..n] && (packets + [p])[n..] == packets[n..] + [p];
      assert grown[1..] == ExtendLast(flowlets[1..], p);
    }
  }

  /** Two flowlets that describe the same packets, whatever replies they hold. */
  ghost predicate SamePackets(a: Flowlet, b: Flowlet) {
    a.numbers == b.numbers && a.begin == b.begin && a.end == b.end
  }

  ghost predicate SameShape(a: seq<Flowlet>, b: seq<Flowlet>) {
    |a| == |b| && forall i :: 0 <= i < |a| ==> SamePackets(a[i], b[i])
  }

  lemma {:induction false} ShapeKeepsPartition(packets: seq<Packet>, a: seq<Flowlet>, b: seq<Flowlet>)
    requires Partitions(packets, a) && SameShape(a, b)
    ensures Partitions(packets, b)
    decreases |a|
  {
    if a != [] {
      assert SamePackets(a[0], b[0]);
      assert forall i :: 0 <= i < |a[1..]| ==> a[1..][i] == a[i + 1] && b[1..][i] == b[i + 1];
      ShapeKeepsPartition(packets[|a[0].numbers|..], a[1..], b[1..]);
    }
  }

  /** No queued flowlet is complete, and only the front one can hold replies. */
  ghost predicate Quiet(flowlets: seq<Flowlet>) {
    forall i :: 0 <= i < |flowlets| ==>
      && !flowlets[i].complete
      && |flowlets[i].replyNumbers| == |flowlets[i].replyTimes|
      && (i > 0 ==> flowlets[i].replyTimes == [])
  }

  // ---------------------------------------------------------------- losses

  /** The retransmittable packets among the lost ones, in order. */
  function LostDatagrams(packets: seq<Packet>, lost: set<nat>): (d: seq<Datagram>) {
    if packets == [] then []
    else
      var last := packets[|packets| - 1];
      LostDatagrams(packets[..|packets| - 1], lost) +
      (if last.Raw? && last.Number() in lost then [last.datagram] else [])
  }

  /** How many of the packets could still be retransmitted. */
  function RawCount(packets: seq<Packet>): (n: nat) {
    if packets == [] then 0
    else RawCount(packets[..|packets| - 1]) + (if packets[|packets| - 1].Raw? then 1 else 0)
  }

  lemma {:induction false} RawCountSplits(packets: seq<Packet>, n: nat)
    requires n <= |packets|
    ensures RawCount(packets) == RawCount(packets[..n]) + RawCount(packets[n..])
    decreases |packets|
  {
    if n == |packets| {
      assert packets[..n] == packets;
    } else {
      var front := packets[..|packets| - 1];
      RawCountSplits(front, n);
      assert front[..n] == packets[..n];
      assert packets[n..][..|packets[n..]| - 1] == front[n..];
    }
  }

  lemma {:induction false} LossesAreRaw(packets: seq<Packet>, lost: set<nat>)
    ensures |LostDatagrams(packets, lost)| <= RawCount(packets)
  {
    if packets != [] {
      LossesAreRaw(packets[..|packets| - 1], lost);
    }
  }

  /** `added` is every packet ever queued, numbered from one; the queue holds its tail. */
  ghost predicate IsHistory(added: seq<Packet>, packets: seq<Packet>, processed: nat) {
    && |added| == processed >= |packets|
    && packets == added[processed - |packets|..]
    && forall k :: 0 <= k < |added| ==> added[k].Number() == k + 1
  }

  /**
   Every declared loss is a packet that was added with a payload and has left the queue;
   numbers strictly increase, so no packet is ever declared lost twice.
   */
  ghost predicate IsLossLog(log: seq<Datagram>, added: seq<Packet>, gone: nat) {
    && gone <= |added|
    && (forall a :: 0 <= a < |log| ==> 1 <= log[a].number <= gone && added[log[a].number - 1] == Raw(log[a]))
    && (forall a, b :: 0 <= a < b < |log| ==> log[a].number < log[b].number)
  }

  lemma {:induction false} LossLogGrows(log: seq<Datagram>, added: seq<Packet>, gone: nat, n: nat, lost: set<nat>)
    requires gone + n <= |added| && IsLossLog(log, added, gone)
    requires forall k :: 0 <= k < |added| ==> added[k].Number() == k + 1
    ensures IsLossLog(log + LostDatagrams(added[gone..gone + n], lost), added, gone + n)
    decreases n
  {
    hide IsLossLog, LostDatagrams;
    var block := added[gone..gone + n];
    if n == 0 {
      NothingLostOf(lost);
      assert block == [] && log + [] == log;
    } else {
      var last := block[n - 1];
      assert block[..n - 1] == added[gone..gone + n - 1] && last == added[gone + n - 1];
      LossLogGrows(log, added, gone, n - 1, lost);
      LastOfLost(block, lost);
      var before := log + LostDatagrams(block[..n - 1], lost);
      var more := if last.Raw? && last.Number() in lost then [last.datagram] else [];
      assert log + LostDatagrams(block, lost) == before + more;
      LossLogStep(before, added, gone + n - 1, more);
    }
  }

  lemma NothingLostOf(lost: set<nat>)
    ensures LostDatagrams([], lost) == []
  {
  }

  lemma LastOfLost(packets: seq<Packet>, lost: set<nat>)
    requires packets != []
    ensures var last := packets[|packets| - 1];
            LostDatagrams(packets, lost) == LostDatagrams(packets[..|packets| - 1], lost) +
              (if last.Raw? && last.Number() in lost then [last.datagram] else [])
  {
  }

  lemma LossLogStep(log: seq<Datagram>, added: seq<Packet>, gone: nat, more: seq<Datagram>)
    requires gone < |added| && IsLossLog(log, added, gone) && added[gone].Number() == gone + 1
    requires more == [] || (added[gone].Raw? && more == [added[gone].datagram])
    ensures IsLossLog(log + more, added, gone + 1)
  {
    assert forall a :: |log| <= a < |log + more| ==> (log + more)[a] == added[gone].datagram;
  }

  // ---------------------------------------------------------------- the invariant of the queue

  /** The contents of a queue, with its history: all packets added, and all losses declared. */
  datatype Contents = Contents(
    packets: seq<Packet>, flowlets: seq<Flowlet>, processed: nat, clock: Time, added: seq<Packet>, log: seq<Datagram>)

  ghost predicate IsSound(q: Contents) {
    && InOrder(q.packets, q.processed, q.clock)
    && Partitions(q.packets, q.flowlets)
    && Separated(q.flowlets)
    && IsHistory(q.added, q.packets, q.processed)
    && IsLossLog(q.log, q.added, q.processed - |q.packets|)
  }

  lemma NoLossWithoutPackets(q: Contents)
    requires IsSound(q)
    ensures q.added == [] ==> q.log == []
  {
    if q.log != [] {
      assert 1 <= q.log[0].number <= |q.added|;
    }
  }

  lemma SoundHasLossLog(q: Contents)
    requires IsSound(q)
    ensures IsLossLog(q.log, q.added, |q.added|)
  {
  }

  lemma SoundIsSeparated(q: Contents)
    requires IsSound(q)
    ensures Separated(q.flowlets)
  {
  }

  lemma ProcessedCountsAdded(q: Contents)
    requires IsSound(q)
    ensures |q.added| == q.processed
  {
  }

  lemma EmptyIsSound(now: Time)
    ensures IsSound(Contents([], [], 0, now, [], [])) && Quiet([])
  {
    assert InOrder([], 0, now);
    assert Partitions([], []);
    assert Separated([]);
    var none: seq<Packet> := [];
    assert none[0..] == none;
    assert IsHistory(none, none, 0);
    assert IsLossLog([], none, 0);
    hide InOrder, Partitions, Separated, IsHistory, IsLossLog;
  }

  /** The contents after packet `p` was added, opening a flowlet or not. */
  ghost function WithPacket(q: Contents, p: Packet, newFlowlet: bool): Contents
    requires newFlowlet || q.flowlets != []
  {
    Contents(q.packets + [p],
             if newFlowlet then q.flowlets + [Flowlet.New(p.Number(), p.Timestamp())] else ExtendLast(q.flowlets, p),
             q.processed + 1, p.Timestamp(), q.added + [p], q.log)
  }

  lemma AddKeepsSound(q: Contents, p: Packet, newFlowlet: bool)
    requires IsSound(q) && p.Number() == q.processed + 1 && p.Timestamp() >= q.clock
    requires newFlowlet || q.flowlets != []
    requires newFlowlet && q.packets != [] ==> p.Timestamp() > q.packets[|q.packets| - 1].Timestamp()
    ensures IsSound(WithPacket(q, p, newFlowlet))
  {
    hide InOrder, Partitions, Separated, IsHistory, IsLossLog;
    if newFlowlet {
      PartitionAppendsFlowlet(q.packets, q.flowlets, p);
    } else {
      PartitionExtendsLast(q.packets, q.flowlets, p);
    }
    AddKeepsOrder(q, p);
    AddKeepsSeparation(q, p, newFlowlet);
  }

  lemma AddKeepsQuiet(q: Contents, p: Packet, newFlowlet: bool)
    requires Quiet(q.flowlets) && (newFlowlet || q.flowlets != [])
    ensures Quiet(WithPacket(q, p, newFlowlet).flowlets)
    ensures RawCount(q.packets + [p]) == RawCount(q.packets) + (if p.Raw? then 1 else 0)
  {
    assert (q.packets + [p])[..|q.packets|] == q.packets;
  }

  lemma AddKeepsOrder(q: Contents, p: Packet)
    requires InOrder(q.packets, q.processed, q.clock) && IsHistory(q.added, q.packets, q.processed)
    requires IsLossLog(q.log, q.added, q.processed - |q.packets|)
    requires p.Number() == q.processed + 1 && p.Timestamp() >= q.clock
    ensures InOrder(q.packets + [p], q.processed + 1, p.Timestamp())
    ensures IsHistory(q.added + [p], q.packets + [p], q.processed + 1)
    ensures IsLossLog(q.log, q.added + [p], q.processed - |q.packets|)
  {
    assert (q.added + [p])[q.processed - |q.packets|..] == q.packets + [p];
  }

  lemma AddKeepsSeparation(q: Contents, p: Packet, newFlowlet: bool)
    requires InOrder(q.packets, q.processed, q.clock) && p.Timestamp() >= q.clock
    requires Partitions(q.packets, q.flowlets) && Separated(q.flowlets)
    requires newFlowlet || q.flowlets != []
    requires newFlowlet && q.packets != [] ==> p.Timestamp() > q.packets[|q.packets| - 1].Timestamp()
    ensures Separated(WithPacket(q, p, newFlowlet).flowlets)
  {
    LastFlowletEnds(q.packets, q.flowlets);
    assert q.packets != [] ==> q.packets[|q.packets| - 1].Timestamp() <= p.Timestamp();
    hide Partitions, InOrder;
    var r, last := WithPacket(q, p, newFlowlet).flowlets, |q.flowlets| - 1;
    forall i, j | 0 <= i < j < |r|
      ensures r[i].end < r[j].begin
    {
      assert i < last ==> q.flowlets[i].end < q.flowlets[last].begin;
    }
  }

  /** The contents after the front flowlet was removed and `lost` of its packets declared lost. */
  ghost function WithoutFront(q: Contents, lost: set<nat>): Contents
    requires q.flowlets != [] && |q.flowlets[0].numbers| <= |q.packets|
  {
    var n := |q.flowlets[0].numbers|;
    q.(packets := q.packets[n..], flowlets := q.flowlets[1..], log := q.log + LostDatagrams(q.packets[..n], lost))
  }

  lemma RemoveKeepsSound(q: Contents, lost: set<nat>)
    requires IsSound(q) && q.flowlets != []
    ensures IsSound(WithoutFront(q, lost))
  {
    hide InOrder, Partitions, Separated, IsHistory, IsLossLog, LostDatagrams;
    RemoveKeepsPartition(q.packets, q.flowlets);
    var n := |q.flowlets[0].numbers|;
    RemoveKeepsOrder(q, n);
    LossLogGrows(q.log, q.added, q.processed - |q.packets|, n, lost);
  }

  lemma RemoveKeepsPartition(packets: seq<Packet>, flowlets: seq<Flowlet>)
    requires flowlets != [] && Partitions(packets, flowlets) && Separated(flowlets)
    ensures |flowlets[0].numbers| <= |packets|
    ensures Partitions(packets[|flowlets[0].numbers|..], flowlets[1..]) && Separated(flowlets[1..])
  {
    assert forall i :: 0 <= i < |flowlets[1..]| ==> flowlets[1..][i] == flowlets[i + 1];
  }

  lemma RemoveKeepsOrder(q: Contents, n: nat)
    requires InOrder(q.packets, q.processed, q.clock) && IsHistory(q.added, q.packets, q.processed) && n <= |q.packets|
    ensures InOrder(q.packets[n..], q.processed, q.clock) && IsHistory(q.added, q.packets[n..], q.processed)
    ensures |q.packets| <= q.processed == |q.added|
    ensures q.packets[..n] == q.added[q.processed - |q.packets|..q.processed - |q.packets| + n]
    ensures forall k :: 0 <= k < |q.added| ==> q.added[k].Number() == k + 1
  {
    assert forall k :: 0 <= k < |q.packets| - n ==> q.packets[n..][k] == q.packets[k + n];
  }

  /** New replies, marks and later times leave the packets as they are. */
  lemma ReshapeKeepsSound(q: Contents, flowlets: seq<Flowlet>, clock: Time)
    requires IsSound(q) && SameShape(q.flowlets, flowlets) && clock >= q.clock
    ensures IsSound(q.(flowlets := flowlets, clock := clock))
  {
    ShapeKeepsPartition(q.packets, q.flowlets, flowlets);
    assert Separated(flowlets) by {
      assert forall i :: 0 <= i < |flowlets| ==> SamePackets(q.flowlets[i], flowlets[i]);
    }
  }

  lemma {:induction false} NothingLost(packets: seq<Packet>)
    ensures LostDatagrams(packets, {}) == []
  {
    if packets != [] {
      NothingLost(packets[..|packets| - 1]);
    }
  }

  // ---------------------------------------------------------------- completing several flowlets

  /** How many packets the flowlets hold. */
  ghost function Span(flowlets: seq<Flowlet>): nat {
    if flowlets == [] then 0 else |flowlets[0].numbers| + Span(flowlets[1..])
  }

  /** The losses declared when these flowlets, the first of the queue, are completed in turn. */
  ghost function CompletedLoss(
    packets: seq<Packet>, flowlets: seq<Flowlet>, rtt: Duration, threshold: nat): seq<Datagram>
    requires Span(flowlets) <= |packets|
  {
    if flowlets == [] then []
    else
      var block := packets[..|flowlets[0].numbers|];
      LostDatagrams(block, FlowletLoss(flowlets[0], Times(block), rtt, threshold)) +
      CompletedLoss(packets[|block|..], flowlets[1..], rtt, threshold)
  }

  /** The RTT samples they yield. */
  ghost function CompletedSamples(packets: seq<Packet>, flowlets: seq<Flowlet>, rtt: Duration): seq<Duration>
    requires Span(flowlets) <= |packets|
  {
    if flowlets == [] then []
    else
      var block := packets[..|flowlets[0].numbers|];
      FlowletSamples(flowlets[0], Times(block), rtt) + CompletedSamples(packets[|block|..], flowlets[1..], rtt)
  }

  lemma {:induction false} PartitionSpan(packets: seq<Packet>, flowlets: seq<Flowlet>, n: nat)
    requires Partitions(packets, flowlets) && n <= |flowlets|
    ensures Span(flowlets[..n]) <= |packets|
    decreases n
  {
    if n > 0 {
      PartitionSpan(packets[|flowlets[0].numbers|..], flowlets[1..], n - 1);
      assert flowlets[..n][1..] == flowlets[1..][..n - 1];
    }
  }

  lemma SpanFits(q: Contents, n: nat)
    requires IsSound(q) && n <= |q.flowlets|
    ensures Span(q.flowlets[..n]) <= |q.packets|
  {
    PartitionSpan(q.packets, q.flowlets, n);
  }

  lemma CompleteNone(packets: seq<Packet>, flowlets: seq<Flowlet>, rtt: Duration, threshold: nat)
    ensures Span(flowlets[..0]) == 0
    ensures CompletedLoss(packets, flowlets[..0], rtt, threshold) == []
    ensures CompletedSamples(packets, flowlets[..0], rtt) == []
  {
  }

  /** Completing `left` flowlets is completing the front one, then `left - 1` of the rest. */
  lemma CompleteFrontFirst(packets: seq<Packet>, flowlets: seq<Flowlet>, left: nat, rtt: Duration, threshold: nat)
    requires 0 < left <= |flowlets| && Span(flowlets[..left]) <= |packets|
    ensures var n := |flowlets[0].numbers|;
            var rest := flowlets[1..][..left - 1];
            && n + Span(rest) == Span(flowlets[..left])
            && packets[n..][Span(rest)..] == packets[Span(flowlets[..left])..]
            && CompletedLoss(packets, flowlets[..left], rtt, threshold) ==
               LostDatagrams(packets[..n], FlowletLoss(flowlets[0], Times(packets[..n]), rtt, threshold)) +
               CompletedLoss(packets[n..], rest, rtt, threshold)
            && CompletedSamples(packets, flowlets[..left], rtt) ==
               FlowletSamples(flowlets[0], Times(packets[..n]), rtt) + CompletedSamples(packets[n..], rest, rtt)
  {
    assert flowlets[..left][1..] == flowlets[1..][..left - 1];
  }

  /**
   What completing these flowlets, the first of the queue, has to yield: all datagrams of a flowlet without
   replies are lost, and none of one with enough replies. Only the first can have replies; as many as packets
   give one RTT sample for each packet, fewer one for each reply, and more give none.
   */
  ghost predicate RightlyCompleted(
    packets: seq<Packet>, done: seq<Flowlet>, losses: seq<Datagram>, samples: seq<Duration>) {
    && (forall i, d :: 0 <= i < |done| && Raw(d) in packets && d.number in done[i].numbers ==>
          && (done[i].replyTimes == [] ==> d in losses)
          && (|done[i].replyTimes| >= |done[i].numbers| ==> d !in losses))
    && if done == [] || |done[0].replyTimes| > |done[0].numbers| then samples == []
       else
         && |samples| == |done[0].replyTimes|
         && (|samples| == |done[0].numbers| ==> forall k :: 0 <= k < |samples| && k < |packets| ==>
               samples[k] == Since(done[0].replyTimes[k], packets[k].Timestamp()))
  }

  ghost predicate Ascending(packets: seq<Packet>) {
    forall k, l :: 0 <= k < l < |packets| ==> packets[k].Number() < packets[l].Number()
  }

  lemma {:induction false} LostDatagramsAre(packets: seq<Packet>, lost: set<nat>, d: Datagram)
    ensures d in LostDatagrams(packets, lost) <==> Raw(d) in packets && d.number in lost
  {
    if packets != [] {
      var front, last := packets[..|packets| - 1], packets[|packets| - 1];
      LostDatagramsAre(front, lost, d);
      assert packets == front + [last];
    }
  }

  /** A flowlet holds only numbers of queued packets. */
  lemma {:induction false} HoldsOwnNumbers(packets: seq<Packet>, flowlets: seq<Flowlet>, i: nat, m: nat)
    returns (j: nat)
    requires Partitions(packets, flowlets) && i < |flowlets| && m in flowlets[i].numbers
    ensures j < |packets| && packets[j].Number() == m
    decreases i
  {
    var n := |flowlets[0].numbers|;
    if i == 0 {
      FrontNumbers(packets, flowlets);
      j :| 0 <= j < n && flowlets[0].numbers[j] == m;
    } else {
      var k := HoldsOwnNumbers(packets[n..], flowlets[1..], i - 1, m);
      j := n + k;
    }
  }

  /** Every declared loss is a datagram of one of the flowlets completed. */
  lemma {:induction false} LossesAreQueued(
    packets: seq<Packet>, flowlets: seq<Flowlet>, rtt: Duration, threshold: nat, d: Datagram)
    requires Span(flowlets) <= |packets| && d in CompletedLoss(packets, flowlets, rtt, threshold)
    ensures Raw(d) in packets
    decreases |flowlets|
  {
    if flowlets != [] {
      var block := packets[..|flowlets[0].numbers|];
      LostDatagramsAre(block, FlowletLoss(flowlets[0], Times(block), rtt, threshold), d);
      if d !in LostDatagrams(block, FlowletLoss(flowlets[0], Times(block), rtt, threshold)) {
        LossesAreQueued(packets[|block|..], flowlets[1..], rtt, threshold, d);
      }
    }
  }

  /** The first block of a queue holds the datagrams of the first flowlet, and no others. */
  lemma BlockHoldsFront(packets: seq<Packet>, flowlets: seq<Flowlet>, i: nat, d: Datagram)
    requires Partitions(packets, flowlets) && Ascending(packets) && i < |flowlets|
    requires Raw(d) in packets && d.number in flowlets[i].numbers
    ensures var n := |flowlets[0].numbers|;
            && n <= |packets| && Partitions(packets[n..], flowlets[1..]) && Ascending(packets[n..])
            && (Raw(d) in packets[..n] <==> i == 0) && (Raw(d) in packets[n..] <==> i > 0)
  {
    hide Partitions, Ascending;
    var n := |flowlets[0].numbers|;
    FrontNumbers(packets, flowlets);
    RestPartitions(packets, flowlets);
    if i == 0 {
      var k :| 0 <= k < n && flowlets[0].numbers[k] == d.number;
      InOnePart(packets, n, k, d);
    } else {
      var k := HoldsOwnNumbers(packets[n..], flowlets[1..], i - 1, d.number);
      InOnePart(packets, n, n + k, d);
    }
  }

  lemma RestPartitions(packets: seq<Packet>, flowlets: seq<Flowlet>)
    requires flowlets != [] && Partitions(packets, flowlets)
    ensures |flowlets[0].numbers| <= |packets| && Partitions(packets[|flowlets[0].numbers|..], flowlets[1..])
  {
  }

  /** A packet is found where its number is, and nowhere else. */
  lemma InOnePart(packets: seq<Packet>, n: nat, k: nat, d: Datagram)
    requires Ascending(packets) && n <= |packets| && k < |packets| && packets[k].Number() == d.number
    requires Raw(d) in packets
    ensures (Raw(d) in packets[..n] <==> k < n) && (Raw(d) in packets[n..] <==> k >= n) && Ascending(packets[n..])
  {
    var j :| 0 <= j < |packets| && packets[j] == Raw(d);
    assert j == k;
    if k < n {
      assert packets[..n][k] == Raw(d);
    } else {
      assert packets[n..][k - n] == Raw(d);
    }
  }

  lemma LostInFrontOrLater(
    packets: seq<Packet>, flowlets: seq<Flowlet>, n: nat, rtt: Duration, threshold: nat, d: Datagram)
    requires 0 < n <= |flowlets| && Span(flowlets[..n]) <= |packets|
    ensures var m := |flowlets[0].numbers|; var rest := flowlets[1..][..n - 1];
            && m <= |packets| && Span(rest) <= |packets[m..]|
            && (d in CompletedLoss(packets, flowlets[..n], rtt, threshold) <==>
                || (Raw(d) in packets[..m] && d.number in FlowletLoss(flowlets[0], Times(packets[..m]), rtt, threshold))
                || d in CompletedLoss(packets[m..], rest, rtt, threshold))
  {
    hide CompletedLoss, CompletedSamples, LostDatagrams, FlowletLoss, FlowletSamples;
    var block := packets[..|flowlets[0].numbers|];
    CompleteFrontFirst(packets, flowlets, n, rtt, threshold);
    LostDatagramsAre(block, FlowletLoss(flowlets[0], Times(block), rtt, threshold), d);
  }

  lemma AllOrNothing(fl: Flowlet, times: seq<Time>, rtt: Duration, threshold: nat, m: nat)
    requires |times| == |fl.numbers| && m in fl.numbers
    ensures fl.replyTimes == [] ==> m in FlowletLoss(fl, times, rtt, threshold)
    ensures |fl.replyTimes| >= |fl.numbers| ==> m !in FlowletLoss(fl, times, rtt, threshold)
  {
  }

  /** A datagram of one flowlet is lost or kept as that flowlet has it. */
  lemma {:induction false} LostByItsFlowlet(
    packets: seq<Packet>, flowlets: seq<Flowlet>, n: nat, rtt: Duration, threshold: nat, i: nat, d: Datagram)
    requires Partitions(packets, flowlets) && Ascending(packets) && i < n <= |flowlets|
    requires Span(flowlets[..n]) <= |packets| && Raw(d) in packets && d.number in flowlets[i].numbers
    ensures flowlets[i].replyTimes == [] ==> d in CompletedLoss(packets, flowlets[..n], rtt, threshold)
    ensures |flowlets[i].replyTimes| >= |flowlets[i].numbers| ==>
              d !in CompletedLoss(packets, flowlets[..n], rtt, threshold)
    decreases n
  {
    hide CompletedLoss, FlowletLoss, Partitions, Ascending, Span;
    BlockHoldsFront(packets, flowlets, i, d);
    LostInFrontOrLater(packets, flowlets, n, rtt, threshold, d);
    var m, rest := |flowlets[0].numbers|, flowlets[1..][..n - 1];
    if i == 0 {
      AllOrNothing(flowlets[0], Times(packets[..m]), rtt, threshold, d.number);
      if d in CompletedLoss(packets[m..], rest, rtt, threshold) {
        LossesAreQueued(packets[m..], rest, rtt, threshold, d);
      }
    } else {
      LostByItsFlowlet(packets[m..], flowlets[1..], n - 1, rtt, threshold, i - 1, d);
    }
  }

  /** Flowlets without replies yield no samples. */
  lemma {:induction false} NoRepliesNoSamples(packets: seq<Packet>, flowlets: seq<Flowlet>, rtt: Duration)
    requires Span(flowlets) <= |packets| && forall i :: 0 <= i < |flowlets| ==> flowlets[i].replyTimes == []
    ensures CompletedSamples(packets, flowlets, rtt) == []
    decreases |flowlets|
  {
    if flowlets != [] {
      NoRepliesNoSamples(packets[|flowlets[0].numbers|..], flowlets[1..], rtt);
    }
  }

  /** What completing the first `n` flowlets yields is right. */
  lemma CompletesRightly(q: Contents, n: nat, rtt: Duration, threshold: nat)
    requires IsSound(q) && n <= |q.flowlets| && Span(q.flowlets[..n]) <= |q.packets|
    requires forall i :: 0 < i < n ==> q.flowlets[i].replyTimes == []
    ensures RightlyCompleted(q.packets, q.flowlets[..n], CompletedLoss(q.packets, q.flowlets[..n], rtt, threshold),
                             CompletedSamples(q.packets, q.flowlets[..n], rtt))
  {
    var done := q.flowlets[..n];
    forall i, d | 0 <= i < |done| && Raw(d) in q.packets && d.number in done[i].numbers
      ensures done[i].replyTimes == [] ==> d in CompletedLoss(q.packets, done, rtt, threshold)
      ensures |done[i].replyTimes| >= |done[i].numbers| ==> d !in CompletedLoss(q.packets, done, rtt, threshold)
    {
      LostByItsFlowlet(q.packets, q.flowlets, n, rtt, threshold, i, d);
    }
    hide IsSound, CompletedLoss;
    if n > 0 {
      OnlyFrontYields(q.packets, done, rtt);
    }
  }

  /** If only the first flowlet has replies, all samples are its own. */
  lemma OnlyFrontYields(packets: seq<Packet>, done: seq<Flowlet>, rtt: Duration)
    requires done != [] && Span(done) <= |packets| && forall i :: 0 < i < |done| ==> done[i].replyTimes == []
    ensures |done[0].numbers| <= |packets|
    ensures CompletedSamples(packets, done, rtt) == FlowletSamples(done[0], Times(packets[..|done[0].numbers|]), rtt)
  {
    hide FlowletSamples;
    var n, rest := |done[0].numbers|, done[1..];
    assert forall i :: 0 <= i < |rest| ==> rest[i] == done[i + 1];
    assert Span(rest) <= |packets[n..]|;
    NoRepliesNoSamples(packets[n..], rest, rtt);
    assert FlowletSamples(done[0], Times(packets[..n]), rtt) + [] == FlowletSamples(done[0], Times(packets[..n]), rtt);
  }

  /** Same packets and same replies: only the completion mark may differ. */
  ghost predicate SameButMark(a: seq<Flowlet>, b: seq<Flowlet>) {
    |a| == |b| && forall i :: 0 <= i < |a| ==> a[i].(complete := false) == b[i].(complete := false)
  }

  lemma MarkIsIrrelevant(a: Flowlet, b: Flowlet, times: seq<Time>, rtt: Duration, threshold: nat)
    requires a.(complete := false) == b.(complete := false) && |times| == |a.numbers|
    ensures FlowletLoss(a, times, rtt, threshold) == FlowletLoss(b, times, rtt, threshold)
    ensures FlowletSamples(a, times, rtt) == FlowletSamples(b, times, rtt)
  {
    if PartlyAnswered(a) {
      assert ProblemOf(a, times, rtt) == ProblemOf(b, times, rtt);
    }
  }

  lemma {:induction false} MarksAreIrrelevant(
    packets: seq<Packet>, a: seq<Flowlet>, b: seq<Flowlet>, rtt: Duration, threshold: nat)
    requires SameButMark(a, b) && Span(a) <= |packets|
    ensures Span(b) == Span(a)
    ensures CompletedLoss(packets, a, rtt, threshold) == CompletedLoss(packets, b, rtt, threshold)
    ensures CompletedSamples(packets, a, rtt) == CompletedSamples(packets, b, rtt)
    decreases |a|
  {
    if a != [] {
      assert a[0].(complete := false) == b[0].(complete := false);
      var block := packets[..|a[0].numbers|];
      MarkIsIrrelevant(a[0], b[0], Times(block), rtt, threshold);
      assert forall i :: 0 <= i < |a[1..]| ==> a[1..][i] == a[i + 1] && b[1..][i] == b[i + 1];
      MarksAreIrrelevant(packets[|block|..], a[1..], b[1..], rtt, threshold);
    }
  }

  /** The flowlets after a reply went to flowlet `c`. */
  function Answer(flowlets: seq<Flowlet>, c: nat, now: Time, number: nat): (a: seq<Flowlet>)
    requires c < |flowlets|
  {
    flowlets[c := flowlets[c].AddReply(now, number)]
  }

  /** The flowlets with the first `n` marked complete. */
  function Marked(flowlets: seq<Flowlet>, n: nat): (a: seq<Flowlet>)
    requires n <= |flowlets|
    ensures |a| == |flowlets|
    ensures forall i :: 0 <= i < |a| ==>
              a[i] == if i < n then flowlets[i].(complete := true) else flowlets[i]
  {
    seq(|flowlets|, i requires 0 <= i < |flowlets| => if i < n then flowlets[i].(complete := true) else flowlets[i])
  }

  /**
   How many flowlets a reply to flowlet `c` completes: all before it, or the only one when
   it has grown too long.
   */
  function CompletedBy(flowlets: seq<Flowlet>, c: nat, most: nat): (n: nat)
    requires c < |flowlets|
    ensures n <= |flowlets|
  {
    if |flowlets| == 1 && |flowlets[0].numbers| > most then 1 else c
  }

  /** A reply leaves a quiet queue once the flowlets it completed are gone. */
  lemma AnswerKeepsQuiet(flowlets: seq<Flowlet>, c: nat, now: Time, number: nat, most: nat)
    requires Quiet(flowlets) && c < |flowlets|
    ensures var a := Answer(flowlets, c, now, number); var n := CompletedBy(flowlets, c, most);
            && SameShape(flowlets, Marked(a, n))
            && (forall i :: 0 <= i < |a| ==> (Marked(a, n)[i].complete <==> i < n))
            && Marked(a, n)[n..] == a[n..] && Quiet(a[n..])
            && SameButMark(Marked(a, n)[..n], a[..n])
  {
  }

  // ---------------------------------------------------------------- timeouts

  ghost predicate Expired(fl: Flowlet, now: Time, timeout: Duration) {
    now > fl.end + timeout
  }

  /** How many flowlets the timeout loop removes before it meets one that is not due. */
  ghost function ExpiredPrefix(flowlets: seq<Flowlet>, now: Time, timeout: Duration): (k: nat)
    ensures k <= |flowlets|
  {
    if flowlets != [] && Expired(flowlets[0], now, timeout)
    then 1 + ExpiredPrefix(flowlets[1..], now, timeout) else 0
  }

  /** End times are ordered, so the scanned prefix is every expired flowlet. */
  lemma {:induction false} ExpiredPrefixIsAllExpired(flowlets: seq<Flowlet>, now: Time, timeout: Duration)
    requires Separated(flowlets)
    ensures forall i :: 0 <= i < |flowlets| ==>
              (Expired(flowlets[i], now, timeout) <==> i < ExpiredPrefix(flowlets, now, timeout))
    decreases |flowlets|
  {
    if flowlets != [] && Expired(flowlets[0], now, timeout) {
      var rest := flowlets[1..];
      assert forall i :: 0 <= i < |rest| ==> rest[i] == flowlets[i + 1];
      ExpiredPrefixIsAllExpired(rest, now, timeout);
      assert forall i :: 1 <= i < |flowlets| ==> flowlets[i] == rest[i - 1];
    }
  }

  /** Removing the expired flowlets leaves a quiet queue in which none is due. */
  lemma UnexpiredRest(flowlets: seq<Flowlet>, now: Time, timeout: Duration)
    requires Separated(flowlets) && Quiet(flowlets)
    ensures var k := ExpiredPrefix(flowlets, now, timeout);
            && Quiet(flowlets[k..])
            && (forall i :: 0 <= i < |flowlets| ==> (Expired(flowlets[i], now, timeout) <==> i < k))
  {
    ExpiredPrefixIsAllExpired(flowlets, now, timeout);
  }
}
