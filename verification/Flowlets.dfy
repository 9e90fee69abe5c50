/**
 Packets, flowlets, and what completing a flowlet yields: the `Flowlet` half of
 `pemi/src/queue.rs`. A `Flowlet` is a value owned by the queue that holds it.
 */
module Flowlets {
  import opened Base
  import opened Matching
  import opened LossInference

  /** A forwarded datagram that can be retransmitted (`RawUdpPacket`). */
  datatype Datagram = Datagram(number: nat, timestamp: Time, payload: Bytes)

  datatype Packet = Raw(datagram: Datagram) | Retrans(num: nat, ts: Time)
  {
    function Number(): nat { if Raw? then datagram.number else num }
    function Timestamp(): Time { if Raw? then datagram.timestamp else ts }
  }

  datatype Flowlet = Flowlet(
    numbers: seq<nat>, replyTimes: seq<Time>, replyNumbers: seq<nat>, begin: Time, end: Time, complete: bool)
  {
    static function New(number: nat, time: Time): Flowlet {
      Flowlet([number], [], [], time, time, false)
    }

    function Add(number: nat, time: Time): Flowlet {
      this.(numbers := numbers + [number], end := time)
    }

    function AddReply(time: Time, number: nat): Flowlet {
      this.(replyTimes := replyTimes + [time], replyNumbers := replyNumbers + [number])
    }
  }

  // ---------------------------------------------------------------- choosing the flowlet of a reply

  /** How far the moment `x` lies outside the flowlet. */
  function Distance(fl: Flowlet, x: Time): (d: Duration)
  {
    if x > fl.end then x - fl.end else if x < fl.begin then fl.begin - x else 0.0
  }

  /** `c` is the first of the flowlets nearest to `x`. */
  ghost predicate IsTarget(flowlets: seq<Flowlet>, x: Time, c: int) {
    && 0 <= c < |flowlets|
    && (forall i :: 0 <= i < |flowlets| ==> Distance(flowlets[c], x) <= Distance(flowlets[i], x))
    && (forall i :: 0 <= i < c ==> Distance(flowlets[c], x) < Distance(flowlets[i], x))
  }

  /** The first of the flowlets nearest to `x`. */
  ghost function Target(flowlets: seq<Flowlet>, x: Time): (c: nat)
    requires flowlets != []
    ensures IsTarget(flowlets, x, c)
  {
    var n := |flowlets| - 1;
    if n == 0 then 0
    else
      var c := Target(flowlets[..n], x);
      if Distance(flowlets[n], x) < Distance(flowlets[c], x) then n else c
  }

  lemma TargetIsUnique(flowlets: seq<Flowlet>, x: Time, c: nat)
    requires flowlets != [] && IsTarget(flowlets, x, c)
    ensures c == Target(flowlets, x) && c < |flowlets|
  {
    hide Distance, Target;
    var d := Target(flowlets, x);
    assert Distance(flowlets[c], x) <= Distance(flowlets[d], x) <= Distance(flowlets[c], x);
  }

  /** Every flowlet begins strictly after all earlier ones have ended. */
  ghost predicate Separated(flowlets: seq<Flowlet>) {
    && (forall i :: 0 <= i < |flowlets| ==> flowlets[i].begin <= flowlets[i].end)
    && (forall i, j :: 0 <= i < j < |flowlets| ==> flowlets[i].end < flowlets[j].begin)
  }

  /** The search of `check_reply`: it stops early at a flowlet that contains the moment. */
  method FindTarget(flowlets: seq<Flowlet>, now: Time, rtt: Duration) returns (c: nat)
    requires flowlets != []
    ensures IsTarget(flowlets, now - rtt, c)
  {
    c := 0;
    var least: Option<Duration> := None;
    for i := 0 to |flowlets|
      invariant i > 0 ==> c < i && least == Some(Distance(flowlets[c], now - rtt))
      invariant i == 0 ==> c == 0 && least == None
      invariant forall k :: 0 <= k < i ==> Distance(flowlets[k], now - rtt) > 0.0
      invariant forall k :: 0 <= k < i ==> Distance(flowlets[c], now - rtt) <= Distance(flowlets[k], now - rtt)
      invariant forall k :: 0 <= k < c ==> Distance(flowlets[c], now - rtt) < Distance(flowlets[k], now - rtt)
    {
      var fl := flowlets[i];
      if fl.begin + rtt <= now <= fl.end + rtt {
        c := i;
        return;
      }
      var error := if now > fl.end + rtt then now - fl.end - rtt else fl.begin + rtt - now;
      if least.None? || error < least.value {
        least := Some(error);
        c := i;
      }
    }
  }

  /**
   A moment inside a flowlet belongs to it; one between two flowlets to the nearer, and in the middle to
   the earlier; one outside all of them to the first or the last.
   */
  lemma TargetByTime(flowlets: seq<Flowlet>, x: Time, c: int)
    requires Separated(flowlets) && IsTarget(flowlets, x, c)
    ensures forall i :: 0 <= i < |flowlets| && flowlets[i].begin <= x <= flowlets[i].end ==> c == i
    ensures forall i :: 0 < i < |flowlets| && flowlets[i - 1].end < x < flowlets[i].begin ==>
              c == if x - flowlets[i - 1].end <= flowlets[i].begin - x then i - 1 else i
    ensures x < flowlets[0].begin ==> c == 0
    ensures x > flowlets[|flowlets| - 1].end ==> c == |flowlets| - 1
  {
    var n := |flowlets| - 1;
    forall i | 0 <= i <= n && flowlets[i].begin <= x <= flowlets[i].end
      ensures c == i
    {
      assert Distance(flowlets[c], x) <= Distance(flowlets[i], x) == 0.0;
    }
    forall i | 0 < i <= n && flowlets[i - 1].end < x < flowlets[i].begin
      ensures c == if x - flowlets[i - 1].end <= flowlets[i].begin - x then i - 1 else i
    {
      NearerEdge(flowlets, x, i, c);
    }
    assert Distance(flowlets[c], x) <= Distance(flowlets[0], x) && Distance(flowlets[c], x) <= Distance(flowlets[n], x);
  }

  lemma NearerEdge(flowlets: seq<Flowlet>, x: Time, i: int, c: int)
    requires Separated(flowlets) && IsTarget(flowlets, x, c) && 0 < i < |flowlets|
    requires flowlets[i - 1].end < x < flowlets[i].begin
    ensures c == if x - flowlets[i - 1].end <= flowlets[i].begin - x then i - 1 else i
  {
    assert Distance(flowlets[i - 1], x) == x - flowlets[i - 1].end && Distance(flowlets[i], x) == flowlets[i].begin - x;
    assert Distance(flowlets[c], x) <= Distance(flowlets[i - 1], x);
    assert Distance(flowlets[c], x) <= Distance(flowlets[i], x);
  }

  /** In a fixed queue a later reply never goes to an earlier flowlet. */
  lemma LaterReplyLaterFlowlet(flowlets: seq<Flowlet>, x: Time, y: Time, c: int, d: int)
    requires Separated(flowlets) && x <= y
    requires IsTarget(flowlets, x, c) && IsTarget(flowlets, y, d)
    ensures c <= d
  {
    forall i | 0 <= i < c
      ensures Distance(flowlets[c], y) < Distance(flowlets[i], y)
    {
      DistanceGrows(flowlets[i], flowlets[c], x, y);
    }
    assert Distance(flowlets[d], y) <= Distance(flowlets[c], y);
  }

  /** Moving away from the past brings a later flowlet nearer, compared with an earlier one. */
  lemma DistanceGrows(early: Flowlet, late: Flowlet, x: Time, y: Time)
    requires early.begin <= early.end < late.begin <= late.end && x <= y
    ensures Distance(early, x) - Distance(late, x) <= Distance(early, y) - Distance(late, y)
  {
  }

  // ---------------------------------------------------------------- completing one flowlet

  /** The send times of the packets of a flowlet. */
  function Times(packets: seq<Packet>): (t: seq<Time>)
    ensures |t| == |packets| && forall k :: 0 <= k < |t| ==> t[k] == packets[k].Timestamp()
  {
    seq(|packets|, k requires 0 <= k < |packets| => packets[k].Timestamp())
  }

  /** 0.8: below this share of the sending time the replies may have lost their edges. */
  const DURATION_RATIO_THRESHOLD: real := 0.8

  /** The round-trip time the matcher uses for a partly answered flowlet. */
  function UsedRtt(fl: Flowlet, rtt: Duration): Duration
    requires fl.replyTimes != []
  {
    var last := fl.replyTimes[|fl.replyTimes| - 1];
    if Since(last, fl.replyTimes[0]) < Since(fl.end, fl.begin) * DURATION_RATIO_THRESHOLD then rtt
    else Since(last, fl.end)
  }

  function ElapsedFrom(base: Time, times: seq<Time>): (e: seq<real>)
    ensures |e| == |times|
  {
    seq(|times|, k requires 0 <= k < |times| => Since(times[k], base))
  }

  /** The matching problem of a partly answered flowlet. */
  function ProblemOf(fl: Flowlet, times: seq<Time>, rtt: Duration): (p: Problem)
    requires times != [] && fl.replyTimes != []
    ensures |p.sent| == |times| && |p.reply| == |fl.replyTimes|
  {
    Problem(ElapsedFrom(times[0], times), ElapsedFrom(times[0], fl.replyTimes), UsedRtt(fl, rtt))
  }

  ghost predicate PartlyAnswered(fl: Flowlet) {
    0 < |fl.replyTimes| < |fl.numbers|
  }

  /** The packet each reply of a partly answered flowlet is attributed to. */
  ghost function Attribution(fl: Flowlet, times: seq<Time>, rtt: Duration): (f: seq<nat>)
    requires |times| == |fl.numbers| && PartlyAnswered(fl)
    ensures IsMatching(f, |times|, |fl.replyTimes|)
  {
    Latest(ProblemOf(fl, times, rtt), |times|, |fl.replyTimes|)
  }

  /**
   Replies that span at least 0.8 of the sending time are taken to be complete at the end: the last is
   attributed to the last packet. Otherwise the matcher uses the RTT of the connection.
   */
  lemma LastReplyToLastPacket(fl: Flowlet, times: seq<Time>, rtt: Duration)
    requires |times| == |fl.numbers| && PartlyAnswered(fl)
    requires times[0] == fl.begin <= fl.end == times[|times| - 1]
    ensures var n := |fl.replyTimes| - 1; var first, last := fl.replyTimes[0], fl.replyTimes[n];
            if 10.0 * Since(last, first) < 8.0 * (fl.end - fl.begin) then ProblemOf(fl, times, rtt).rtt == rtt
            else fl.end <= last ==> Attribution(fl, times, rtt)[n] == |times| - 1
  {
    var p, f, n := ProblemOf(fl, times, rtt), Attribution(fl, times, rtt), |fl.replyTimes| - 1;
    var first, last := fl.replyTimes[0], fl.replyTimes[n];
    if 10.0 * Since(last, first) >= 8.0 * (fl.end - fl.begin) && fl.end <= last {
      assert p.reply[n] - p.sent[|times| - 1] - p.rtt == 0.0;
      LatestMatchingIsOptimal(p);
      hide ProblemOf, Attribution;
      EveryReplyIsNearest(p, f, n);
      var least := Abs(p.reply[n] - p.sent[|times| - 1] - p.rtt);
      assert f[n] < |times| - 1 ==> Abs(p.reply[n] - p.sent[f[n]] - p.rtt) < least;
    }
  }

  /** The reply of each packet under the attribution `f`. */
  ghost function Inverse(f: seq<nat>, n: nat): (mapping: seq<Option<nat>>)
    requires IsMatching(f, n, |f|)
    ensures |mapping| == n && Represents(mapping, f)
  {
    seq(n, i => if exists k :: 0 <= k < |f| && f[k] == i
                then var k :| 0 <= k < |f| && f[k] == i; Some(k) else None)
  }

  lemma InverseIsUnique(mapping: seq<Option<nat>>, f: seq<nat>)
    requires IsMatching(f, |mapping|, |f|) && Represents(mapping, f)
    ensures mapping == Inverse(f, |mapping|)
  {
    var other := Inverse(f, |mapping|);
    forall i | 0 <= i < |mapping|
      ensures mapping[i] == other[i]
    {
      if mapping[i].Some? {
        assert other[f[mapping[i].value]] == mapping[i];
      }
      if other[i].Some? {
        assert mapping[f[other[i].value]] == other[i];
      }
    }
  }

  /** The packet numbers a completed flowlet declares lost. */
  ghost function FlowletLoss(fl: Flowlet, times: seq<Time>, rtt: Duration, threshold: nat): set<nat>
    requires |times| == |fl.numbers|
  {
    if |fl.numbers| <= |fl.replyTimes| then {}
    else if fl.replyTimes == [] then set n | n in fl.numbers
    else LostNumbers(times, Inverse(Attribution(fl, times, rtt), |times|), fl.numbers, threshold)
  }

  /** The RTT samples a completed flowlet yields. */
  ghost function FlowletSamples(fl: Flowlet, times: seq<Time>, rtt: Duration): (s: seq<Duration>)
    requires |times| == |fl.numbers|
  {
    if |fl.numbers| < |fl.replyTimes| || fl.replyTimes == [] then []
    else if |fl.numbers| == |fl.replyTimes| then
      seq(|times|, k requires 0 <= k < |times| => Since(fl.replyTimes[k], times[k]))
    else
      var f := Attribution(fl, times, rtt);
      seq(|f|, k requires 0 <= k < |f| => Since(fl.replyTimes[k], times[f[k]]))
  }

  /**
   A flowlet answered in part yields one sample per reply, loses no packet a reply is
   attributed to, and loses at most as many packets as replies are missing.
   */
  lemma PartlyAnsweredFlowlet(fl: Flowlet, times: seq<Time>, rtt: Duration, threshold: nat)
    requires |times| == |fl.numbers| && PartlyAnswered(fl) && Distinct(fl.numbers)
    ensures var f := Attribution(fl, times, rtt);
            var lost := FlowletLoss(fl, times, rtt, threshold);
            && IsLatestCheapest(ProblemOf(fl, times, rtt), f)
            && |FlowletSamples(fl, times, rtt)| == |fl.replyTimes|
            && (forall k :: 0 <= k < |f| ==> fl.numbers[f[k]] !in lost)
            && |lost| <= |fl.numbers| - |fl.replyTimes|
  {
    var f := Attribution(fl, times, rtt);
    LatestMatchingIsOptimal(ProblemOf(fl, times, rtt));
    LossesAndReplies(times, Inverse(f, |times|), f, fl.numbers, threshold);
  }

  /** `match_sent_part_reply` followed by the two extractions, for a partly answered flowlet. */
  method InferPartLoss(fl: Flowlet, times: seq<Time>, rtt: Duration, threshold: nat)
    returns (lost: set<nat>, samples: seq<Duration>)
    requires |times| == |fl.numbers| && PartlyAnswered(fl) && threshold in {1, 2}
    ensures lost == FlowletLoss(fl, times, rtt, threshold)
    ensures samples == FlowletSamples(fl, times, rtt)
  {
    var mapping := MatchSentReply(ProblemOf(fl, times, rtt));
    ghost var f := Attribution(fl, times, rtt);
    hide LostNumbers, ProblemOf, Attribution, Latest, IsMatching, Represents, FlowletLoss, FlowletSamples;
    InverseIsUnique(mapping, f);
    lost := ExtractPartLoss(times, mapping, fl.numbers, threshold);
    samples := ExtractRttSamples(mapping, times, fl.replyTimes, f);
    PartlyAnsweredYields(fl, times, rtt, threshold, samples);
  }

  lemma PartlyAnsweredYields(fl: Flowlet, times: seq<Time>, rtt: Duration, threshold: nat, samples: seq<Duration>)
    requires |times| == |fl.numbers| && PartlyAnswered(fl) && |samples| == |fl.replyTimes|
    requires var f := Attribution(fl, times, rtt);
             forall k :: 0 <= k < |samples| ==> samples[k] == Since(fl.replyTimes[k], times[f[k]])
    ensures FlowletLoss(fl, times, rtt, threshold) ==
            LostNumbers(times, Inverse(Attribution(fl, times, rtt), |times|), fl.numbers, threshold)
    ensures FlowletSamples(fl, times, rtt) == samples
  {
    hide LostNumbers, Attribution;
  }

  /** The case analysis of `complete_one_flowlet`; the matcher only runs on partly answered flowlets. */
  method InferLoss(fl: Flowlet, times: seq<Time>, rtt: Duration, threshold: nat)
    returns (lost: set<nat>, samples: seq<Duration>)
    requires |times| == |fl.numbers| && threshold in {1, 2}
    ensures lost == FlowletLoss(fl, times, rtt, threshold)
    ensures samples == FlowletSamples(fl, times, rtt)
  {
    if |fl.numbers| < |fl.replyTimes| {
      lost, samples := {}, [];
    } else if |fl.replyTimes| == |fl.numbers| {
      lost, samples := {}, [];
      for k := 0 to |fl.numbers|
        invariant |samples| == k
        invariant forall l :: 0 <= l < k ==> samples[l] == Since(fl.replyTimes[l], times[l])
      {
        samples := samples + [Since(fl.replyTimes[k], times[k])];
      }
    } else if fl.replyTimes == [] {
      lost, samples := set n | n in fl.numbers, [];
    } else {
      lost, samples := InferPartLoss(fl, times, rtt, threshold);
    }
  }
}
