/** The two-level queue of `pemi/src/queue.rs`: forwarded packets and the flowlets they form. */
module PacketQueues {
  import opened Base
  import opened Flowlets
  import opened QueueModel

  /** A flowlet longer than this is given up when it is answered. */
  const FLOWLET_MAX_PKTS: nat := 100

  /** The eliciting threshold is measured again after this many packets. */
  const MEASURE_INTERVAL: nat := 50

  const REPLY_RATIO_FOR_1: real := 0.6

  /** The original stops when a packet is added to a queue longer than this. */
  const MAX_QUEUED: nat := 1000

  function Scale(d: Duration, factor: Duration): Duration {
    d * factor
  }

  /** What decides where flowlets end and how many packets a reply stands for. */
  datatype Pacing = Pacing(
    interval: Duration, lastTime: Time, threshold: nat, intervalFactor: Duration, endFactor: Duration)

  /** What completing flowlets leads to: the packets and flowlets left, all losses, and the samples. */
  datatype Completion = Completion(
    packets: seq<Packet>, flowlets: seq<Flowlet>, losses: seq<Datagram>, samples: seq<Duration>)

  /** Having got these samples, the rest leads to `c` as a whole. */
  ghost predicate ComesAfter(c: Completion, samples: seq<Duration>, rest: Completion) {
    && c.packets == rest.packets && c.flowlets == rest.flowlets && c.losses == rest.losses
    && c.samples == samples + rest.samples
  }

  lemma AllToCome(c: Completion)
    ensures ComesAfter(c, [], c)
  {
  }

  lemma OneAfterAnother(c: Completion, samples: seq<Duration>, mid: Completion, more: seq<Duration>, rest: Completion)
    requires ComesAfter(c, samples, mid) && ComesAfter(mid, more, rest)
    ensures ComesAfter(c, samples + more, rest)
  {
  }

  lemma NothingToCome(c: Completion, samples: seq<Duration>, rest: Completion)
    requires ComesAfter(c, samples, rest) && rest.samples == []
    ensures c == rest.(samples := samples)
  {
    assert samples + [] == samples;
  }

  class PacketQueue {
    var packets: seq<Packet>
    var detectedLoss: seq<Datagram>
    var flowlets: seq<Flowlet>
    var processed: nat
    var lastPacketTime: Time
    var smoothedInterval: Duration
    var elicitingThreshold: nat
    var replyCount: nat
    var intervalFactor: Duration
    var endFactor: Duration

    /** Every packet ever added, the declared losses already taken out, and the latest event time. */
    ghost var added: seq<Packet>
    ghost var drained: seq<Datagram>
    ghost var clock: Time

    /** What holds even while flowlets are being completed. */
    ghost predicate Sound()
      reads this
    {
      IsSound(Now()) && elicitingThreshold in {1, 2}
    }

    ghost function Now(): Contents
      reads this
    {
      Contents(packets, flowlets, processed, clock, added, drained + detectedLoss)
    }

    /** What holds between calls. */
    ghost predicate Valid()
      reads this
    {
      Sound() && Quiet(flowlets)
    }

    /** Retransmissions this queue can still cause. */
    ghost function Load(): nat
      reads this
    {
      |detectedLoss| + RawCount(packets)
    }

    constructor (now: Time)
      ensures Valid() && packets == [] && flowlets == [] && detectedLoss == [] && added == [] && drained == []
      ensures processed == 0 && replyCount == 0 && clock == now && Load() == 0
      ensures lastPacketTime == now && smoothedInterval == 1_000_000.0 && elicitingThreshold == 1
      ensures intervalFactor == 2.0 && endFactor == 2.0
    {
      hide IsSound, Quiet;
      packets, detectedLoss, flowlets := [], [], [];
      processed, replyCount := 0, 0;
      lastPacketTime := now;
      smoothedInterval := 1_000_000.0;
      elicitingThreshold := 1;
      intervalFactor, endFactor := 2.0, 2.0;
      added, drained, clock := [], [], now;
      new;
      assert drained + detectedLoss == [];
      EmptyIsSound(now);
    }

    method SetFactors(interval: Duration, end: Duration)
      requires Valid()
      modifies `intervalFactor, `endFactor
      ensures Valid() && intervalFactor == interval && endFactor == end
    {
      hide IsSound, Quiet;
      intervalFactor, endFactor := interval, end;
    }

    /** The gap after which the next packet starts a new flowlet. */
    function FlowletTimeout(): Duration
      reads this
    {
      Scale(smoothedInterval, intervalFactor)
    }

    /** How long after its last packet a flowlet is still waited for. */
    function EndTimeout(rtt: Duration): Duration
      reads this
    {
      rtt + Scale(FlowletTimeout(), endFactor)
    }

    /** A flowlet is waited for one RTT and two factors of the usual gap between packets after its end. */
    lemma DeadlineIsExact(fl: Flowlet, now: Time, rtt: Duration)
      ensures Expired(fl, now, EndTimeout(rtt)) <==>
              now - fl.end - rtt > smoothedInterval * intervalFactor * endFactor
    {
    }

    ghost function Pace(): Pacing
      reads this
    {
      Pacing(smoothedInterval, lastPacketTime, elicitingThreshold, intervalFactor, endFactor)
    }

    /** The pace after a new datagram, the one with this number, at `time`. */
    ghost function PaceWith(time: Time, number: nat): Pacing
      reads this
    {
      Pacing(SmoothedWith(time), time,
             if number % MEASURE_INTERVAL == 0 then ThresholdAt(number) else elicitingThreshold,
             intervalFactor, endFactor)
    }

    // -------------------------------------------------------------- add

    function SmoothedWith(time: Time): Duration
      reads this
    {
      smoothedInterval * 0.875 + Since(time, lastPacketTime) * 0.125
    }

    method RecordPacketInterval(time: Time)
      modifies `lastPacketTime, `smoothedInterval
      ensures lastPacketTime == time && smoothedInterval == old(SmoothedWith(time))
      ensures 8.0 * smoothedInterval == 7.0 * old(smoothedInterval) + Since(time, old(lastPacketTime))
    {
      var interval := Since(time, lastPacketTime);
      lastPacketTime := time;
      smoothedInterval := smoothedInterval * 0.875 + interval * 0.125;
    }

    /** The packet number `number` would become. */
    static function PacketFor(number: nat, time: Time, payload: Option<Bytes>): Packet {
      if payload.Some? then Raw(Datagram(number, time, payload.value)) else Retrans(number, time)
    }

    /**
     `add`: a retransmitted copy has no payload. The new packet joins the last flowlet unless
     it comes later than the flowlet timeout after the newest packet.
     */
    method Add(time: Time, payload: Option<Bytes>) returns (number: nat, newFlowlet: bool)
      requires Valid() && time >= clock
      requires |packets| <= MAX_QUEUED
      modifies this
      ensures Valid()
      ensures number == old(processed) + 1
      ensures newFlowlet == (old(packets) == [] ||
                             Since(time, old(packets)[|old(packets)| - 1].Timestamp()) > FlowletTimeout())
      ensures newFlowlet || old(flowlets) != []
      ensures Now() == WithPacket(old(Now()), PacketFor(number, time, payload), newFlowlet)
      ensures smoothedInterval == if payload.Some? then old(SmoothedWith(time)) else old(smoothedInterval)
      ensures lastPacketTime == if payload.Some? then time else old(lastPacketTime)
      ensures elicitingThreshold ==
              if number % MEASURE_INTERVAL == 0 then ThresholdAt(number) else old(elicitingThreshold)
      ensures detectedLoss == old(detectedLoss) && drained == old(drained)
      ensures Load() == old(Load()) + (if payload.Some? then 1 else 0)
      ensures replyCount == old(replyCount) && intervalFactor == old(intervalFactor) && endFactor == old(endFactor)
    {
      hide InOrder, Partitions, Separated, IsHistory, IsLossLog, Quiet, RawCount, Scale, Since, WithPacket;
      if payload.Some? {
        RecordPacketInterval(time);
      }
      number := processed + 1;
      if number % MEASURE_INTERVAL == 0 {
        MeasureElicitingThreshold(number);
      }
      LastFlowletEnds(packets, flowlets);
      newFlowlet := packets == [] || Since(time, packets[|packets| - 1].Timestamp()) > FlowletTimeout();
      Append(PacketFor(number, time, payload), newFlowlet);
    }

    /** Enters the packet in a flowlet, then in the queue. */
    method Append(p: Packet, newFlowlet: bool)
      requires IsSound(Now()) && Quiet(flowlets)
      requires p.Number() == processed + 1 && p.Timestamp() >= clock
      requires newFlowlet || flowlets != []
      requires newFlowlet && packets != [] ==> p.Timestamp() > packets[|packets| - 1].Timestamp()
      modifies `packets, `flowlets, `processed, `added, `clock
      ensures Now() == WithPacket(old(Now()), p, newFlowlet) && IsSound(Now()) && Quiet(flowlets)
      ensures Load() == old(Load()) + (if p.Raw? then 1 else 0)
    {
      hide InOrder, Partitions, Separated, IsHistory, IsLossLog, Quiet, RawCount;
      if newFlowlet {
        flowlets := flowlets + [Flowlet.New(p.Number(), p.Timestamp())];
      } else {
        flowlets := flowlets[|flowlets| - 1 := flowlets[|flowlets| - 1].Add(p.Number(), p.Timestamp())];
      }
      packets := packets + [p];
      processed := p.Number();
      added := added + [p];
      clock := p.Timestamp();
      AddKeepsSound(old(Now()), p, newFlowlet);
      AddKeepsQuiet(old(Now()), p, newFlowlet);
    }

    /** Two packets per reply when replies are fewer than 60% of the packets, else one. */
    function ThresholdAt(count: nat): nat
      reads this
    {
      if replyCount < (count as real * REPLY_RATIO_FOR_1).Floor then 2 else 1
    }

    method MeasureElicitingThreshold(count: nat)
      modifies `elicitingThreshold
      ensures elicitingThreshold == ThresholdAt(count)
      ensures elicitingThreshold == if 10 * (replyCount + 1) <= 6 * count then 2 else 1
    {
      if replyCount < (count as real * REPLY_RATIO_FOR_1).Floor {
        elicitingThreshold := 2;
      } else {
        elicitingThreshold := 1;
      }
    }

    // -------------------------------------------------------------- lookup

    /** `get_packet`: indexing by offset from the front finds the packet with that number. */
    method GetPacket(number: nat) returns (p: Packet)
      requires IsSound(Now()) && packets != []
      requires packets[0].Number() <= number <= packets[|packets| - 1].Number()
      ensures p in packets && p.Number() == number && p == added[number - 1]
    {
      var off := number - packets[0].Number();
      p := packets[off];
    }

    /** The send times of the front flowlet's packets. */
    method FrontTimes() returns (times: seq<Time>)
      requires Sound() && flowlets != []
      ensures |flowlets[0].numbers| <= |packets|
      ensures times == Times(packets[..|flowlets[0].numbers|])
    {
      var numbers := flowlets[0].numbers;
      ghost var block := packets[..|numbers|];
      times := [];
      for k := 0 to |numbers|
        invariant |times| == k
        invariant forall l :: 0 <= l < k ==> times[l] == block[l].Timestamp()
      {
        assert numbers[k] == block[k].Number() == packets[k].Number();
        var p := GetPacket(numbers[k]);
        assert p == packets[k];
        times := times + [p.Timestamp()];
      }
    }

    // -------------------------------------------------------------- completing flowlets

    /** Takes the packets with these numbers off the front, keeping the lost ones for retransmission. */
    method PopPackets(numbers: seq<nat>, lost: set<nat>)
      requires |numbers| <= |packets|
      requires forall k :: 0 <= k < |numbers| ==> numbers[k] == packets[k].Number()
      modifies `packets, `detectedLoss
      ensures packets == old(packets)[|numbers|..]
      ensures detectedLoss == old(detectedLoss) + LostDatagrams(old(packets)[..|numbers|], lost)
    {
      ghost var before := packets;
      for k := 0 to |numbers|
        invariant packets == before[k..]
        invariant detectedLoss == old(detectedLoss) + LostDatagrams(before[..k], lost)
      {
        var p := packets[0];
        packets := packets[1..];
        assert p.Number() == numbers[k];
        assert before[..k + 1][..k] == before[..k];
        if numbers[k] in lost && p.Raw? {
          detectedLoss := detectedLoss + [p.datagram];
        }
      }
    }

    /** `remove_a_complete_flowlet`: drops the front flowlet and its packets. */
    method RemoveCompleteFlowlet(lost: set<nat>)
      requires IsSound(Now()) && flowlets != [] && flowlets[0].complete
      modifies `packets, `flowlets, `detectedLoss
      ensures IsSound(Now())
      ensures |old(flowlets)[0].numbers| <= |old(packets)|
      ensures var n := |old(flowlets)[0].numbers|;
              && flowlets == old(flowlets)[1..] && packets == old(packets)[n..]
              && detectedLoss == old(detectedLoss) + LostDatagrams(old(packets)[..n], lost)
      ensures Load() <= old(Load())
    {
      hide InOrder, Separated, IsHistory, IsLossLog, LostDatagrams, RawCount;
      var numbers := flowlets[0].numbers;
      FrontNumbers(packets, flowlets);
      flowlets := flowlets[1..];
      PopPackets(numbers, lost);
      ghost var block := old(packets)[..|numbers|];
      RemoveKeepsSound(old(Now()), lost);
      assert Now().log == old(Now()).log + LostDatagrams(block, lost);
      LossesAreRaw(block, lost);
      RawCountSplits(old(packets), |numbers|);
    }

    /** `complete_one_flowlet`: infers the losses of the front flowlet and removes it. */
    method CompleteOneFlowlet(rtt: Duration) returns (samples: seq<Duration>)
      requires Sound() && flowlets != [] && flowlets[0].complete
      modifies `packets, `flowlets, `detectedLoss
      ensures Sound() && FrontGone(rtt, samples) && Load() <= old(Load())
    {
      hide IsSound, FlowletLoss, FlowletSamples, LostDatagrams, RawCount;
      var fl := flowlets[0];
      var times := FrontTimes();
      var lost;
      lost, samples := InferLoss(fl, times, rtt, elicitingThreshold);
      RemoveCompleteFlowlet(lost);
    }

    /** The queue once the first `n` flowlets are completed. */
    ghost function Completed(n: nat, rtt: Duration): Completion
      reads this
      requires n <= |flowlets| && Span(flowlets[..n]) <= |packets|
    {
      Completion(packets[Span(flowlets[..n])..], flowlets[n..],
                 detectedLoss + CompletedLoss(packets, flowlets[..n], rtt, elicitingThreshold),
                 CompletedSamples(packets, flowlets[..n], rtt))
    }

    /** The front flowlet is gone, with its losses and these samples. */
    twostate predicate FrontGone(rtt: Duration, new samples: seq<Duration>)
      reads this
    {
      && old(flowlets) != [] && |old(flowlets)[0].numbers| <= |old(packets)|
      && var fl := old(flowlets)[0]; var block := old(packets)[..|fl.numbers|];
         && flowlets == old(flowlets)[1..] && packets == old(packets)[|block|..]
         && detectedLoss == old(detectedLoss) +
              LostDatagrams(block, FlowletLoss(fl, Times(block), rtt, elicitingThreshold))
         && samples == FlowletSamples(fl, Times(block), rtt)
    }

    /** Completing `n` flowlets is completing the front one, then `n - 1`. */
    twostate lemma FrontFirst(new n: nat, new rtt: Duration, new samples: seq<Duration>)
      requires 0 < n <= |old(flowlets)| && Span(old(flowlets)[..n]) <= |old(packets)|
      requires FrontGone(rtt, samples) && elicitingThreshold == old(elicitingThreshold)
      ensures n - 1 <= |flowlets| && Span(flowlets[..n - 1]) <= |packets|
      ensures ComesAfter(old(Completed(n, rtt)), samples, Completed(n - 1, rtt))
    {
      hide FlowletLoss, FlowletSamples, LostDatagrams, CompletedLoss, CompletedSamples, Span;
      CompleteFrontFirst(old(packets), old(flowlets), n, rtt, elicitingThreshold);
    }

    lemma CompletedNone(rtt: Duration)
      ensures Span(flowlets[..0]) == 0 && Completed(0, rtt) == Completion(packets, flowlets, detectedLoss, [])
    {
      CompleteNone(packets, flowlets, rtt, elicitingThreshold);
      var c := Completed(0, rtt);
      assert c.packets == packets && c.flowlets == flowlets && c.losses == detectedLoss;
    }

    /** The closing loop of `check_reply`: completes the flowlets marked complete. */
    method CompleteMarked(rtt: Duration, ghost c: nat) returns (samples: seq<Duration>)
      requires Sound() && c <= |flowlets|
      requires forall i :: 0 <= i < |flowlets| ==> (flowlets[i].complete <==> i < c)
      modifies `packets, `flowlets, `detectedLoss
      ensures Sound() && Span(old(flowlets)[..c]) <= |old(packets)| && Load() <= old(Load())
      ensures Completion(packets, flowlets, detectedLoss, samples) == old(Completed(c, rtt))
    {
      hide IsSound, PacketQueue.Completed, ComesAfter, FlowletLoss, FlowletSamples, LostDatagrams, Span,
        PacketQueue.Load;
      SpanFits(Now(), c);
      AllToCome(Completed(c, rtt));
      samples := [];
      ghost var left: nat, whole := c, Completed(c, rtt);
      while flowlets != [] && flowlets[0].complete
        invariant Sound() && left <= |flowlets| && Span(flowlets[..left]) <= |packets|
        invariant forall i :: 0 <= i < |flowlets| ==> (flowlets[i].complete <==> i < left)
        invariant ComesAfter(whole, samples, Completed(left, rtt))
        invariant Load() <= old(Load())
        decreases |flowlets|
      {
        label Round:
        var more := CompleteOneFlowlet(rtt);
        FrontFirst@Round(left, rtt, more);
        OneAfterAnother(whole, samples, old@Round(Completed(left, rtt)), more, Completed(left - 1, rtt));
        samples, left := samples + more, left - 1;
      }
      CompletedNone(rtt);
      NothingToCome(whole, samples, Completed(0, rtt));
    }

    // -------------------------------------------------------------- replies

    /** A reply that fits no queued flowlet: none queued, too early, or too late. */
    predicate Rejects(now: Time, rtt: Duration)
      reads this
    {
      var slack := EndTimeout(rtt) - rtt;
      || flowlets == []
      || (now < flowlets[0].begin + rtt - slack && flowlets[0].replyNumbers == [])
      || now > flowlets[|flowlets| - 1].end + rtt + slack
    }

    /**
     A reply is rejected exactly if nothing is queued, every flowlet is past its deadline, or it comes more
     than the slack too early for all of them and none was answered yet. So never if it comes one RTT after
     some moment of a queued flowlet.
     */
    lemma RejectsOnlyOutside(now: Time, rtt: Duration)
      requires Valid()
      ensures Rejects(now, rtt) <==>
              || (forall i :: 0 <= i < |flowlets| ==> now > flowlets[i].end + EndTimeout(rtt))
              || (forall i :: 0 <= i < |flowlets| ==>
                    now + EndTimeout(rtt) < flowlets[i].begin + rtt + rtt && flowlets[i].replyNumbers == [])
      ensures (exists i :: 0 <= i < |flowlets| && flowlets[i].begin <= now - rtt <= flowlets[i].end) ==>
                !Rejects(now, rtt)
    {
      hide InOrder, Partitions, IsHistory, IsLossLog, Scale;
      assert Separated(flowlets);
      assert flowlets != [] ==> Scale(FlowletTimeout(), endFactor) >= 0.0;
      assert forall i :: 0 < i < |flowlets| ==> flowlets[0].begin <= flowlets[0].end < flowlets[i].begin;
      assert forall i :: 0 <= i < |flowlets| - 1 ==> flowlets[i].end < flowlets[|flowlets| - 1].begin;
    }

    /**
     `check_reply`: gives the reply to the nearest flowlet, completes all flowlets before it
     and reports their RTT samples; `c` is the flowlet chosen.
     */
    method CheckReply(now: Time, number: nat, rtt: Duration) returns (samples: Option<seq<Duration>>, ghost c: nat)
      requires Valid() && now >= clock
      modifies `packets, `flowlets, `detectedLoss, `replyCount, `clock
      ensures Valid() && ReplyChecked(now, number, rtt, samples, c)
      ensures Load() <= old(Load())
    {
      hide IsSound, Quiet, RawCount, IsTarget, AfterReply, Scale, PacketQueue.GivenTo;
      c := 0;
      replyCount := replyCount + 1;
      ReshapeKeepsSound(Now(), flowlets, now);
      clock := now;
      if Rejects(now, rtt) {
        samples := None;
        return;
      }
      var target := ChooseFlowlet(now, rtt);
      c := target;
      var got := AnswerAndComplete(target, now, number, rtt);
      samples := Some(got);
      ReplyWasGiven(c, now, number, rtt, got);
    }

    /** What one call of `CheckReply` did, `c` being the flowlet it chose. */
    twostate predicate ReplyChecked(now: Time, number: nat, rtt: Duration, new samples: Option<seq<Duration>>, c: nat)
      reads this
    {
      && clock == now && replyCount == old(replyCount) + 1
      && (samples.None? <==> old(Rejects(now, rtt)))
      && (samples.None? ==> packets == old(packets) && flowlets == old(flowlets) && detectedLoss == old(detectedLoss))
      && (samples.Some? ==>
            && IsTarget(old(flowlets), now - rtt, c)
            && AfterReply(old(packets), old(flowlets), old(detectedLoss), c, now, number, rtt, samples.value)
            && GivenTo(old(packets), old(flowlets), old(detectedLoss), c, now, number, samples.value))
    }

    /**
     The reply was given to flowlet `c`, and all flowlets before it were completed, or it alone, if it is the
     only one and holds too many packets.
     */
    ghost predicate GivenTo(was: seq<Packet>, fls: seq<Flowlet>, losses: seq<Datagram>,
                            c: nat, now: Time, number: nat, samples: seq<Duration>)
      reads this
      requires c < |fls|
    {
      var fl := fls[c].(replyTimes := fls[c].replyTimes + [now], replyNumbers := fls[c].replyNumbers + [number]);
      var full := |fls| == 1 && |fl.numbers| > FLOWLET_MAX_PKTS;
      && flowlets == (if full then [] else [fl]) + fls[c + 1..]
      && |losses| <= |detectedLoss| && detectedLoss[..|losses|] == losses
      && RightlyCompleted(was, if full then [fl] else fls[..c], detectedLoss[|losses|..], samples)
    }

    /** So `AfterReply` has it. */
    twostate lemma ReplyWasGiven(c: nat, new now: Time, new number: nat, new rtt: Duration, new samples: seq<Duration>)
      requires old(Valid()) && c < |old(flowlets)|
      requires AfterReply(old(packets), old(flowlets), old(detectedLoss), c, now, number, rtt, samples)
      ensures GivenTo(old(packets), old(flowlets), old(detectedLoss), c, now, number, samples)
    {
      hide IsSound, CompletedLoss, CompletedSamples, RightlyCompleted, Span;
      var fls := old(flowlets);
      var a, n := Answer(fls, c, now, number), CompletedBy(fls, c, FLOWLET_MAX_PKTS);
      ReshapeKeepsSound(old(Now()), a, old(clock));
      CompletesRightly(old(Now()).(flowlets := a, clock := old(clock)), n, rtt, elicitingThreshold);
      if n == c {
        assert a[..n] == fls[..c];
      } else {
        assert a[..n] == [a[0]];
      }
    }

    /** Only with several flowlets queued is there a choice. */
    method ChooseFlowlet(now: Time, rtt: Duration) returns (c: nat)
      requires flowlets != []
      ensures IsTarget(flowlets, now - rtt, c)
    {
      if |flowlets| == 1 {
        c := 0;
      } else {
        c := FindTarget(flowlets, now, rtt);
      }
    }

    /** The queue after the reply was given to flowlet `c`. */
    ghost predicate AfterReply(was: seq<Packet>, fls: seq<Flowlet>, losses: seq<Datagram>,
                             c: nat, now: Time, number: nat, rtt: Duration, samples: seq<Duration>)
      requires c < |fls|
      reads this
    {
      var a := Answer(fls, c, now, number);
      var n := CompletedBy(fls, c, FLOWLET_MAX_PKTS);
      && Span(a[..n]) <= |was|
      && flowlets == a[n..]
      && packets == was[Span(a[..n])..]
      && detectedLoss == losses + CompletedLoss(was, a[..n], rtt, elicitingThreshold)
      && samples == CompletedSamples(was, a[..n], rtt)
    }

    method AnswerAndComplete(c: nat, now: Time, number: nat, rtt: Duration) returns (samples: seq<Duration>)
      requires Valid() && c < |flowlets|
      modifies `packets, `flowlets, `detectedLoss
      ensures Valid() && Load() <= old(Load())
      ensures AfterReply(old(packets), old(flowlets), old(detectedLoss), c, now, number, rtt, samples)
    {
      hide IsSound, Quiet, RawCount, CompletedLoss, CompletedSamples, Span, SameShape, SameButMark;
      ghost var a := Answer(flowlets, c, now, number);
      ghost var n := CompletedBy(flowlets, c, FLOWLET_MAX_PKTS);
      AnswerKeepsQuiet(flowlets, c, now, number, FLOWLET_MAX_PKTS);
      ReshapeKeepsSound(Now(), Marked(a, n), clock);
      flowlets := flowlets[c := flowlets[c].AddReply(now, number)];
      if |flowlets| == 1 {
        if |flowlets[0].numbers| > FLOWLET_MAX_PKTS {
          MarkComplete(1);
        }
      } else {
        MarkComplete(c);
      }
      assert flowlets == Marked(a, n);
      samples := CompleteMarked(rtt, n);
      MarksAreIrrelevant(old(packets), Marked(a, n)[..n], a[..n], rtt, elicitingThreshold);
    }

    /** Marks the first `n` flowlets complete. */
    method MarkComplete(n: nat)
      requires n <= |flowlets|
      modifies `flowlets
      ensures flowlets == Marked(old(flowlets), n)
    {
      for i := 0 to n
        invariant flowlets == Marked(old(flowlets), i)
      {
        flowlets := flowlets[i := flowlets[i].(complete := true)];
      }
    }

    // -------------------------------------------------------------- timeouts

    /** `timeout`: what the front flowlet reports is the earliest deadline of all flowlets. */
    method Timeout(now: Time, rtt: Duration) returns (left: Option<Duration>)
      requires Valid()
      ensures left.None? <==> flowlets == []
      ensures left.Some? ==>
                exists i :: 0 <= i < |flowlets| && left.value == Since(flowlets[i].end + EndTimeout(rtt), now)
      ensures left.Some? ==>
                forall i :: 0 <= i < |flowlets| ==> left.value <= Since(flowlets[i].end + EndTimeout(rtt), now)
    {
      if flowlets == [] {
        left := None;
      } else {
        left := Some(Since(flowlets[0].end + EndTimeout(rtt), now));
        assert forall i :: 0 < i < |flowlets| ==> flowlets[0].end < flowlets[i].begin <= flowlets[i].end;
      }
    }

    /** `on_timeout`: completes exactly the flowlets whose deadline has passed; `k` of them. */
    method OnTimeout(now: Time, rtt: Duration) returns (samples: seq<Duration>, ghost k: nat)
      requires Valid() && now >= clock
      modifies `packets, `flowlets, `detectedLoss, `clock
      ensures Valid() && clock == now && TimedOut(now, rtt, samples, k) && Load() <= old(Load())
    {
      hide IsSound, Quiet, RawCount, CompletedLoss, CompletedSamples, Span, Scale, Expired, RightlyCompleted;
      var timeout := EndTimeout(rtt);
      k := ExpiredPrefix(flowlets, now, timeout);
      SoundIsSeparated(Now());
      UnexpiredRest(flowlets, now, timeout);
      ReshapeKeepsSound(Now(), flowlets, now);
      clock := now;
      SpanFits(Now(), k);
      OnlyFrontAnswered(k);
      CompletesRightly(Now(), k, rtt, elicitingThreshold);
      samples := CompleteExpired(now, rtt, timeout);
    }

    lemma OnlyFrontAnswered(n: nat)
      requires Quiet(flowlets) && n <= |flowlets|
      ensures forall i :: 0 < i < n ==> flowlets[i].replyTimes == []
    {
    }

    /** What one call of `OnTimeout` did: the `k` expired flowlets left, with their losses and samples. */
    twostate predicate TimedOut(now: Time, rtt: Duration, new samples: seq<Duration>, k: nat)
      reads this
    {
      && clock == now && k == ExpiredPrefix(old(flowlets), now, old(EndTimeout(rtt)))
      && Span(old(flowlets)[..k]) <= |old(packets)|
      && (forall i :: 0 <= i < |old(flowlets)| ==> (Expired(old(flowlets)[i], now, old(EndTimeout(rtt))) <==> i < k))
      && flowlets == old(flowlets)[k..] && packets == old(packets)[Span(old(flowlets)[..k])..]
      && detectedLoss == old(detectedLoss) + CompletedLoss(old(packets), old(flowlets)[..k], rtt, elicitingThreshold)
      && samples == CompletedSamples(old(packets), old(flowlets)[..k], rtt)
      && detectedLoss[..|old(detectedLoss)|] == old(detectedLoss)
      && RightlyCompleted(old(packets), old(flowlets)[..k], detectedLoss[|old(detectedLoss)|..], samples)
    }

    method CompleteExpired(now: Time, rtt: Duration, timeout: Duration) returns (samples: seq<Duration>)
      requires Sound()
      modifies `packets, `flowlets, `detectedLoss
      ensures Sound() && Load() <= old(Load())
      ensures var k := ExpiredPrefix(old(flowlets), now, timeout);
              && Span(old(flowlets)[..k]) <= |old(packets)|
              && Completion(packets, flowlets, detectedLoss, samples) == old(Completed(k, rtt))
    {
      hide IsSound, PacketQueue.Completed, ComesAfter, FlowletLoss, FlowletSamples, LostDatagrams, Span,
        PacketQueue.Load;
      ghost var k := ExpiredPrefix(flowlets, now, timeout);
      SpanFits(Now(), k);
      AllToCome(Completed(k, rtt));
      samples := [];
      ghost var left: nat, whole := k, Completed(k, rtt);
      while flowlets != [] && now > flowlets[0].end + timeout
        invariant Sound() && left == ExpiredPrefix(flowlets, now, timeout) && Span(flowlets[..left]) <= |packets|
        invariant ComesAfter(whole, samples, Completed(left, rtt))
        invariant Load() <= old(Load())
        decreases |flowlets|
      {
        label Round:
        var more := CompleteFront(rtt);
        FrontFirst@Round(left, rtt, more);
        OneAfterAnother(whole, samples, old@Round(Completed(left, rtt)), more, Completed(left - 1, rtt));
        samples, left := samples + more, left - 1;
      }
      CompletedNone(rtt);
      NothingToCome(whole, samples, Completed(0, rtt));
    }

    /** Marks the front flowlet complete and completes it. */
    method CompleteFront(rtt: Duration) returns (samples: seq<Duration>)
      requires Sound() && flowlets != []
      modifies `packets, `flowlets, `detectedLoss
      ensures Sound() && FrontGone(rtt, samples) && Load() <= old(Load())
    {
      hide IsSound, FlowletLoss, FlowletSamples, LostDatagrams, RawCount;
      ghost var was := flowlets;
      ReshapeKeepsSound(Now(), Marked(flowlets, 1), clock);
      MarkComplete(1);
      samples := CompleteOneFlowlet(rtt);
      MarkIsIrrelevant(Marked(was, 1)[0], was[0], Times(old(packets)[..|was[0].numbers|]), rtt, elicitingThreshold);
    }

    // -------------------------------------------------------------- reset and retransmission

    /**
     `reset_due_to_rtt_deviation`: the loop stops at the first unanswered flowlet, yet leaves
     no answered one, because only the front flowlet can hold replies.
     */
    method ResetDueToRttDeviation()
      requires Valid()
      modifies `packets, `flowlets
      ensures Valid() && WasReset() && Load() <= old(Load())
    {
      hide IsSound, RawCount;
      ghost var dropped := false;
      while flowlets != [] && flowlets[0].replyTimes != []
        invariant Sound() && Load() <= old(Load())
        invariant !dropped ==> flowlets == old(flowlets) && packets == old(packets)
        invariant dropped ==> old(flowlets) != [] && old(flowlets)[0].replyTimes != []
        invariant dropped ==> |old(flowlets)[0].numbers| <= |old(packets)|
        invariant dropped ==> flowlets == old(flowlets)[1..] && packets == old(packets)[|old(flowlets)[0].numbers|..]
        decreases |flowlets|
      {
        DropFront();
        dropped := true;
      }
    }

    /** The answered flowlet, which can only be the front one, is gone with its packets; all others stay. */
    twostate predicate WasReset()
      reads this
    {
      && (forall i :: 0 <= i < |flowlets| ==> flowlets[i].replyTimes == [])
      && if old(flowlets) != [] && old(flowlets)[0].replyTimes != [] then
           && |old(flowlets)[0].numbers| <= |old(packets)|
           && flowlets == old(flowlets)[1..] && packets == old(packets)[|old(flowlets)[0].numbers|..]
         else flowlets == old(flowlets) && packets == old(packets)
    }

    /** Forgets the front flowlet and its packets. */
    method DropFront()
      requires Sound() && flowlets != []
      modifies `packets, `flowlets
      ensures Sound() && Load() <= old(Load())
      ensures |old(flowlets)[0].numbers| <= |old(packets)|
      ensures flowlets == old(flowlets)[1..] && packets == old(packets)[|old(flowlets)[0].numbers|..]
    {
      hide InOrder, Separated, IsHistory, IsLossLog, LostDatagrams, RawCount;
      ghost var n := |flowlets[0].numbers|;
      var numbers := flowlets[0].numbers;
      FrontNumbers(packets, flowlets);
      RemoveKeepsSound(Now(), {});
      NothingLost(packets[..n]);
      RawCountSplits(packets, n);
      flowlets := flowlets[1..];
      for k := 0 to |numbers|
        invariant flowlets == old(flowlets)[1..] && packets == old(packets)[k..]
      {
        assert packets[0].Number() == numbers[k];
        packets := packets[1..];
      }
      assert Now().log == old(Now()).log + [];
    }

    predicate HaveRetransmit()
      reads this
    {
      detectedLoss != []
    }

    /** `pop_retransmit_front`. */
    method PopRetransmitFront() returns (d: Option<Datagram>)
      requires Valid()
      modifies `detectedLoss, `drained
      ensures Valid()
      ensures d.None? <==> old(detectedLoss) == []
      ensures d.None? ==> detectedLoss == old(detectedLoss) && drained == old(drained)
      ensures d.Some? ==> [d.value] + detectedLoss == old(detectedLoss) && drained == old(drained) + [d.value]
      ensures d.Some? ==> Load() == old(Load()) - 1
    {
      hide IsSound;
      if detectedLoss == [] {
        d := None;
      } else {
        d := Some(detectedLoss[0]);
        drained := drained + [detectedLoss[0]];
        detectedLoss := detectedLoss[1..];
        assert Now().log == old(Now()).log;
      }
    }
  }
}
