/**
 From a sent/reply matching to a loss set and RTT samples: `Flowlet::extract_part_loss` and
 `Flowlet::extract_rtt_samples`.
 */
module LossInference {
  import opened Base
  import opened Matching

  /** 100 microseconds: packets closer than this may share one reply. */
  const CLOSE_THRESHOLD: Duration := 100_000.0

  // ---------------------------------------------------------------- what "lost" means

  /** Packet `x` was sent less than the threshold after its predecessor. */
  predicate Close(times: seq<Time>, x: int) {
    0 < x < |times| && Since(times[x], times[x - 1]) < CLOSE_THRESHOLD
  }

  /** Every gap between packets `a` and `b` is below the threshold. */
  ghost predicate Linked(times: seq<Time>, a: int, b: int) {
    forall x :: (a < x <= b || b < x <= a) ==> Close(times, x)
  }

  /** Some matched packet lies in the run of close gaps around packet `i`. */
  ghost predicate Answered(times: seq<Time>, mapping: seq<Option<nat>>, i: int) {
    exists k :: 0 <= k < |mapping| && mapping[k].Some? && Linked(times, i, k)
  }

  ghost function Unanswered(times: seq<Time>, mapping: seq<Option<nat>>): (u: seq<bool>)
    ensures |u| == |times| && forall i :: 0 <= i < |u| ==> u[i] == !Answered(times, mapping, i)
  {
    seq(|times|, i => !Answered(times, mapping, i))
  }

  /** `[lo, hi)` is a maximal run of unanswered packets. */
  ghost predicate IsGap(u: seq<bool>, lo: int, hi: int) {
    && 0 <= lo < hi <= |u|
    && (forall x :: lo <= x < hi ==> u[x])
    && (lo == 0 || !u[lo - 1])
    && (hi == |u| || !u[hi])
  }

  /**
   Packet `i` is unanswered and, when one reply may cover two packets, its run of unanswered
   packets is longer than one packet or reaches the end of the flowlet.
   */
  ghost predicate IsLost(u: seq<bool>, threshold: nat, i: int) {
    && 0 <= i < |u|
    && u[i]
    && (threshold >= 2 ==> exists lo, hi :: IsGap(u, lo, hi) && lo <= i < hi && (hi - lo >= 2 || hi == |u|))
  }

  /** The numbers of the packets declared lost. */
  ghost function LostNumbers(times: seq<Time>, mapping: seq<Option<nat>>, numbers: seq<nat>, threshold: nat): set<nat>
    requires |numbers| == |times|
  {
    var u := Unanswered(times, mapping);
    set i | 0 <= i < |times| && IsLost(u, threshold, i) :: numbers[i]
  }

  // ---------------------------------------------------------------- consequences

  lemma GapIsUnique(u: seq<bool>, a: int, b: int, c: int, d: int, i: int)
    requires IsGap(u, a, b) && IsGap(u, c, d) && a <= i < b && c <= i < d
    ensures a == c && b == d
  {
  }

  /** Every unanswered packet lies in a gap. */
  lemma {:induction false} GapAround(u: seq<bool>, i: nat) returns (lo: int, hi: int)
    requires i < |u| && u[i]
    ensures IsGap(u, lo, hi) && lo <= i < hi
  {
    lo, hi := i, i + 1;
    while lo > 0 && u[lo - 1]
      invariant 0 <= lo <= i && forall x :: lo <= x <= i ==> u[x]
    {
      lo := lo - 1;
    }
    while hi < |u| && u[hi]
      invariant i < hi <= |u| && forall x :: lo <= x < hi ==> u[x]
    {
      hi := hi + 1;
    }
  }

  /** With threshold 2 a lost packet is told by its two neighbours alone. */
  lemma LostByNeighbours(u: seq<bool>, i: nat)
    requires i < |u|
    ensures IsLost(u, 2, i) <==>
            u[i] && (i == |u| - 1 || (i > 0 && u[i - 1]) || u[i + 1])
  {
    if u[i] {
      var lo, hi := GapAround(u, i);
      if IsLost(u, 2, i) {
        var a, b :| IsGap(u, a, b) && a <= i < b && (b - a >= 2 || b == |u|);
        if b - a >= 2 {
          assert a <= i - 1 || i + 1 < b;
        }
      }
    }
  }

  /** Raising the threshold only removes losses. */
  lemma HigherThresholdLosesLess(times: seq<Time>, mapping: seq<Option<nat>>, numbers: seq<nat>)
    requires |numbers| == |times|
    ensures LostNumbers(times, mapping, numbers, 2) <= LostNumbers(times, mapping, numbers, 1)
  {
    var u := Unanswered(times, mapping);
    forall n | n in LostNumbers(times, mapping, numbers, 2)
      ensures n in LostNumbers(times, mapping, numbers, 1)
    {
      var i :| 0 <= i < |times| && IsLost(u, 2, i) && numbers[i] == n;
      assert IsLost(u, 1, i);
    }
  }

  /** Packets less than 100 microseconds apart share their replies: if one is matched, neither is lost. */
  lemma CloseToMatchedIsKept(
    times: seq<Time>, mapping: seq<Option<nat>>, numbers: seq<nat>, threshold: nat, i: nat, k: nat)
    requires |numbers| == |times| == |mapping| && Distinct(numbers) && i < |times| && k < |times| && mapping[k].Some?
    requires i == k + 1 || k == i + 1
    requires -100_000.0 < times[i] - times[k] < 100_000.0
    ensures numbers[i] !in LostNumbers(times, mapping, numbers, threshold)
  {
    assert Linked(times, i, k);
    assert !Unanswered(times, mapping)[i];
  }

  /** Where no two packets are that close and each reply stands for one, exactly the unmatched are lost. */
  lemma UnmatchedAreLost(times: seq<Time>, mapping: seq<Option<nat>>, numbers: seq<nat>)
    requires |numbers| == |times| == |mapping|
    requires forall i :: 0 < i < |times| ==> times[i] - times[i - 1] >= 100_000.0
    ensures LostNumbers(times, mapping, numbers, 1) == set i | 0 <= i < |times| && mapping[i].None? :: numbers[i]
  {
    var u := Unanswered(times, mapping);
    forall i | 0 <= i < |times|
      ensures u[i] <==> mapping[i].None?
    {
      assert Linked(times, i, i);
      forall k | 0 <= k < |mapping| && Linked(times, i, k)
        ensures k == i
      {
        assert k < i ==> Close(times, i);
        assert i < k ==> Close(times, k);
      }
    }
    LostAtThresholdOne(u);
    hide IsLost, Unanswered, Close, Linked;
  }

  ghost predicate Distinct(s: seq<nat>) {
    forall a, b :: 0 <= a < b < |s| ==> s[a] != s[b]
  }

  lemma {:induction false} DistinctSize(s: seq<nat>)
    requires Distinct(s)
    ensures |set i | 0 <= i < |s| :: s[i]| == |s|
  {
    if s != [] {
      var front, last := s[..|s| - 1], s[|s| - 1];
      DistinctSize(front);
      assert (set i | 0 <= i < |s| :: s[i]) == (set i | 0 <= i < |front| :: front[i]) + {last};
    }
  }

  lemma SubsetSize(a: set<nat>, b: set<nat>)
    requires a <= b
    ensures |a| <= |b|
  {
    assert b == a + (b - a);
  }

  lemma MatchedIsKept(times: seq<Time>, mapping: seq<Option<nat>>, numbers: seq<nat>, threshold: nat, i: nat)
    requires |numbers| == |times| == |mapping| && Distinct(numbers) && i < |times| && mapping[i].Some?
    ensures numbers[i] !in LostNumbers(times, mapping, numbers, threshold)
  {
    assert Linked(times, i, i);
    assert !Unanswered(times, mapping)[i];
  }

  /** The packets replies are attributed to, as a set. */
  lemma AnsweredSize(f: seq<nat>, numbers: seq<nat>) returns (kept: set<nat>)
    requires Distinct(numbers) && Distinct(f) && forall k :: 0 <= k < |f| ==> f[k] < |numbers|
    ensures |kept| == |f| && forall n :: n in kept ==> exists k :: 0 <= k < |f| && n == numbers[f[k]]
  {
    var answered := seq(|f|, k requires 0 <= k < |f| => numbers[f[k]]);
    forall a, b | 0 <= a < b < |answered|
      ensures answered[a] != answered[b]
    {
      assert f[a] != f[b];
    }
    DistinctSize(answered);
    kept := set k | 0 <= k < |answered| :: answered[k];
  }

  /** A matched packet is never declared lost, so losses and replies share the packets. */
  lemma LossesAndReplies(times: seq<Time>, mapping: seq<Option<nat>>, f: seq<nat>, numbers: seq<nat>, threshold: nat)
    requires |numbers| == |times| == |mapping| && Distinct(numbers)
    requires Represents(mapping, f)
    ensures var lost := LostNumbers(times, mapping, numbers, threshold);
            && (forall i :: 0 <= i < |times| && mapping[i].Some? ==> numbers[i] !in lost)
            && |lost| + |f| <= |times|
  {
    hide Unanswered, IsLost;
    var lost := LostNumbers(times, mapping, numbers, threshold);
    var all := set i | 0 <= i < |numbers| :: numbers[i];
    assert lost <= all;
    hide LostNumbers;
    forall i | 0 <= i < |times| && mapping[i].Some?
      ensures numbers[i] !in lost
    {
      MatchedIsKept(times, mapping, numbers, threshold, i);
    }
    DistinctSize(numbers);
    var kept := AnsweredSize(f, numbers);
    assert |lost + kept| == |lost| + |kept|;
    SubsetSize(lost + kept, all);
  }

  // ---------------------------------------------------------------- the scans

  /** A run of close gaps is marked as a whole or not at all. */
  ghost predicate Closed(times: seq<Time>, marks: seq<Option<nat>>)
    requires |marks| == |times|
  {
    forall x :: Close(times, x) ==> (marks[x].Some? <==> marks[x - 1].Some?)
  }

  lemma {:induction false} ClosedAlong(times: seq<Time>, marks: seq<Option<nat>>, a: nat, b: nat)
    requires |marks| == |times| && Closed(times, marks)
    requires a <= b < |times| && Linked(times, a, b)
    ensures marks[a].Some? <==> marks[b].Some?
    decreases b - a
  {
    if a < b {
      assert Close(times, b);
      ClosedAlong(times, marks, a, b - 1);
    }
  }

  /** One matched packet marks the close packets around it that have no reply yet. */
  method SpreadFrom(times: seq<Time>, inferred: array<Option<nat>>, i: nat, reply: nat)
    requires i < inferred.Length == |times| && Closed(times, inferred[..])
    modifies inferred
    ensures Closed(times, inferred[..]) && inferred[i].Some?
    ensures forall p :: 0 <= p < |times| && old(inferred[p]).Some? ==> inferred[p].Some?
    ensures forall p :: 0 <= p < |times| && inferred[p].Some? ==> old(inferred[p]).Some? || Linked(times, p, i)
  {
    ghost var before := inferred[..];
    var n := |times|;
    inferred[i] := Some(reply);
    var j: int := i - 1;
    while j >= 0 && inferred[j].None? && Close(times, j + 1)
      invariant -1 <= j < i
      invariant forall p :: 0 <= p < n && !(j < p <= i) ==> inferred[p] == before[p]
      invariant forall p :: j < p <= i ==> inferred[p].Some?
      invariant forall p :: j + 1 < p <= i ==> Close(times, p)
    {
      hide Close, Closed;
      inferred[j] := Some(reply);
      j := j - 1;
    }
    var k := i + 1;
    while k < n && inferred[k].None? && Close(times, k)
      invariant i < k <= n
      invariant forall p :: 0 <= p < n && !(j < p < k) ==> inferred[p] == before[p]
      invariant forall p :: j < p < k ==> inferred[p].Some?
      invariant forall p :: j + 1 < p < k ==> Close(times, p)
    {
      hide Close, Closed;
      inferred[k] := Some(reply);
      k := k + 1;
    }
    SpreadIsClosed(times, before, inferred[..], j, k);
    hide Close, Closed;
  }

  /** Marking a stretch that ends at answered packets or wide gaps keeps runs whole. */
  lemma SpreadIsClosed(times: seq<Time>, before: seq<Option<nat>>, after: seq<Option<nat>>, lo: int, hi: int)
    requires |before| == |after| == |times| && -1 <= lo < hi <= |times| && lo + 1 < hi
    requires Closed(times, before)
    requires forall p :: 0 <= p < |times| ==> if lo < p < hi then after[p].Some? else after[p] == before[p]
    requires lo < 0 || before[lo].Some? || !Close(times, lo + 1)
    requires hi == |times| || before[hi].Some? || !Close(times, hi)
    ensures Closed(times, after)
  {
    hide Since;
  }

  /** The first scan marks exactly the answered packets. */
  method InferReplies(times: seq<Time>, mapping: seq<Option<nat>>) returns (inferred: array<Option<nat>>)
    requires |mapping| == |times|
    ensures fresh(inferred) && inferred.Length == |times|
    ensures forall p :: 0 <= p < |times| ==> (inferred[p].Some? <==> Answered(times, mapping, p))
  {
    var n := |times|;
    inferred := new Option<nat>[n](_ => None);
    for i := 0 to n
      invariant Closed(times, inferred[..])
      invariant forall p :: 0 <= p < n && inferred[p].Some? ==> Answered(times, mapping, p)
      invariant forall k :: 0 <= k < i && mapping[k].Some? ==> inferred[k].Some?
    {
      if mapping[i].Some? {
        SpreadFrom(times, inferred, i, mapping[i].value);
      }
    }
    forall p | 0 <= p < n && Answered(times, mapping, p)
      ensures inferred[p].Some?
    {
      var k :| 0 <= k < n && mapping[k].Some? && Linked(times, p, k);
      if p <= k {
        ClosedAlong(times, inferred[..], p, k);
      } else {
        ClosedAlong(times, inferred[..], k, p);
      }
    }
  }

  /** The second scan accepts a lone unanswered packet as covered by the reply after it. */
  method ApplyElicitingThreshold(inferred: array<Option<nat>>, ghost u: seq<bool>)
    requires |u| == inferred.Length
    requires forall p :: 0 <= p < |u| ==> (inferred[p].None? <==> u[p])
    modifies inferred
    ensures forall p :: 0 <= p < |u| ==> (inferred[p].None? <==> IsLost(u, 2, p))
  {
    var n := inferred.Length;
    var left := 0;
    while left < n
      invariant 0 <= left <= n
      invariant left == 0 || !u[left - 1] || (left < n && !u[left])
      invariant forall p :: left <= p < n ==> (inferred[p].None? <==> u[p])
      invariant forall p :: 0 <= p < left ==> (inferred[p].None? <==> IsLost(u, 2, p))
    {
      if inferred[left].Some? {
        left := left + 1;
        continue;
      }
      var right := left;
      while right < n && inferred[right].None?
        invariant left <= right <= n
        invariant forall p :: left <= p < right ==> u[p]
      {
        right := right + 1;
      }
      assert IsGap(u, left, right);
      if right == n {
        break;
      }
      AroundShortGap(u, left, right);
      if right - left < 2 {
        assert right - left == 1;
        inferred[left] := Some(0);
      }
      left := right;
    }
  }

  /** Inside one gap either every packet is lost or none is. */
  lemma AroundShortGap(u: seq<bool>, lo: int, hi: int)
    requires IsGap(u, lo, hi)
    ensures forall p :: lo <= p < hi ==> (IsLost(u, 2, p) <==> hi - lo >= 2 || hi == |u|)
  {
    forall p | lo <= p < hi
      ensures IsLost(u, 2, p) <==> hi - lo >= 2 || hi == |u|
    {
      if IsLost(u, 2, p) {
        var a, b :| IsGap(u, a, b) && a <= p < b && (b - a >= 2 || b == |u|);
        GapIsUnique(u, lo, hi, a, b, p);
      }
    }
  }

  /** When every reply stands for one packet, all unanswered packets are lost. */
  lemma LostAtThresholdOne(u: seq<bool>)
    ensures forall i :: 0 <= i < |u| ==> (IsLost(u, 1, i) <==> u[i])
  {
  }

  /** `extract_part_loss`; the eliciting threshold is only ever 1 or 2. */
  method ExtractPartLoss(times: seq<Time>, mapping: seq<Option<nat>>, numbers: seq<nat>, threshold: nat)
    returns (lost: set<nat>)
    requires |mapping| == |times| == |numbers| && threshold in {1, 2}
    ensures lost == LostNumbers(times, mapping, numbers, threshold)
  {
    hide IsLost;
    var inferred := InferReplies(times, mapping);
    ghost var u := Unanswered(times, mapping);
    LostAtThresholdOne(u);
    assert forall p :: 0 <= p < |times| ==> (inferred[p].None? <==> u[p]);
    hide Unanswered;
    if threshold >= 2 {
      ApplyElicitingThreshold(inferred, u);
    }
    lost := {};
    for i := 0 to |times|
      invariant forall p :: 0 <= p < |times| ==> (inferred[p].None? <==> IsLost(u, threshold, p))
      invariant lost == set p | 0 <= p < i && IsLost(u, threshold, p) :: numbers[p]
    {
      if inferred[i].None? {
        lost := lost + {numbers[i]};
      }
    }
  }

  /** `extract_rtt_samples`: one sample per reply, in reply order. */
  method ExtractRttSamples(mapping: seq<Option<nat>>, times: seq<Time>, replies: seq<Time>, ghost f: seq<nat>)
    returns (samples: seq<Duration>)
    requires |mapping| == |times| && Represents(mapping, f) && IsMatching(f, |times|, |replies|)
    ensures |samples| == |replies|
    ensures forall k :: 0 <= k < |samples| ==> samples[k] == Since(replies[k], times[f[k]])
  {
    samples := [];
    for i := 0 to |times|
      invariant |samples| <= |f|
      invariant forall k :: 0 <= k < |samples| ==> f[k] < i && samples[k] == Since(replies[k], times[f[k]])
      invariant forall k :: |samples| <= k < |f| ==> f[k] >= i
    {
      assert forall k :: |samples| <= k < |f| && f[k] == i ==> mapping[i] == Some(k);
      if mapping[i].Some? {
        var k := mapping[i].value;
        assert |samples| <= k && f[|samples|] >= i;
        samples := samples + [Since(replies[k], times[i])];
      }
    }
  }
}
