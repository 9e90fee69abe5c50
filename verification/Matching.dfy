/**
 The sent/reply matcher of a partly answered flowlet: the dynamic program of
 `Flowlet::match_sent_reply_dp`, proved to return the cheapest order-preserving
 matching and, among the cheapest ones, the one that gives every reply the
 latest possible sent packet.
 */
module Matching {
  import opened Base

  /** Send times, reply times and the round-trip time replies are compared with. */
  datatype Problem = Problem(sent: seq<real>, reply: seq<real>, rtt: real)

  /** The error of attributing reply `j` to sent packet `i`. */
  function MatchError(p: Problem, i: nat, j: nat): (e: real)
    requires i < |p.sent| && j < |p.reply|
    ensures e >= 0.0
  {
    var d := p.reply[j] - p.sent[i] - p.rtt;
    if d < 0.0 then -d else d
  }

  /**
   `f[k]` is the sent packet that reply `k` is attributed to: the first `j` replies all
   get distinct packets among the first `i` sent ones, in order.
   */
  ghost predicate IsMatching(f: seq<nat>, i: nat, j: nat) {
    && |f| == j
    && (forall k :: 0 <= k < j ==> f[k] < i)
    && (forall k, l :: 0 <= k < l < j ==> f[k] < f[l])
  }

  ghost function TotalError(p: Problem, f: seq<nat>): real
    requires |f| <= |p.reply| && IsMatching(f, |p.sent|, |f|)
  {
    if f == [] then 0.0
    else TotalError(p, f[..|f| - 1]) + MatchError(p, f[|f| - 1], |f| - 1)
  }

  /** No complete matching is cheaper than `f`. */
  ghost predicate IsCheapest(p: Problem, f: seq<nat>) {
    && IsMatching(f, |p.sent|, |p.reply|)
    && forall g :: IsMatching(g, |p.sent|, |p.reply|) ==> TotalError(p, f) <= TotalError(p, g)
  }

  /** `f` is cheapest, and no cheapest matching attributes any reply to a later packet. */
  ghost predicate IsLatestCheapest(p: Problem, f: seq<nat>) {
    && IsCheapest(p, f)
    && forall g, k {:trigger IsCheapest(p, g), g[k]} ::
         IsCheapest(p, g) && 0 <= k < |f| ==> g[k] <= f[k]
  }

  /** `mapping` is `f` seen from the sent side: the reply of each sent packet, if any. */
  ghost predicate Represents(mapping: seq<Option<nat>>, f: seq<nat>) {
    && (forall k :: 0 <= k < |f| ==> f[k] < |mapping| && mapping[f[k]] == Some(k))
    && (forall i :: 0 <= i < |mapping| && mapping[i].Some? ==>
          mapping[i].value < |f| && f[mapping[i].value] == i)
  }

  // ---------------------------------------------------------------- recurrence

  /** The least error of attributing the first `j` replies to the first `i` sent packets. */
  ghost function Best(p: Problem, i: nat, j: nat): (b: real)
    requires j <= i <= |p.sent| && j <= |p.reply|
    decreases i
  {
    if j == 0 then 0.0
    else
      var use := Best(p, i - 1, j - 1) + MatchError(p, i - 1, j - 1);
      if j < i && Best(p, i - 1, j) < use then Best(p, i - 1, j) else use
  }

  /** Leaving sent packet `i - 1` unanswered is strictly cheaper than using it. */
  ghost predicate SkipsLast(p: Problem, i: nat, j: nat)
    requires 0 < j <= i <= |p.sent| && j <= |p.reply|
  {
    j < i && Best(p, i - 1, j) < Best(p, i - 1, j - 1) + MatchError(p, i - 1, j - 1)
  }

  /** The matching the recurrence follows. */
  ghost function Latest(p: Problem, i: nat, j: nat): (f: seq<nat>)
    requires j <= i <= |p.sent| && j <= |p.reply|
    ensures IsMatching(f, i, j)
    decreases i
  {
    if j == 0 then []
    else if SkipsLast(p, i, j) then Latest(p, i - 1, j)
    else Latest(p, i - 1, j - 1) + [i - 1]
  }

  lemma TotalErrorOfExtension(p: Problem, f: seq<nat>, last: nat)
    requires |f| < |p.reply| && IsMatching(f, last, |f|) && last < |p.sent|
    ensures IsMatching(f + [last], last + 1, |f| + 1)
    ensures TotalError(p, f + [last]) == TotalError(p, f) + MatchError(p, last, |f|)
  {
    assert (f + [last])[..|f|] == f;
  }

  /** A non-empty matching is a shorter one extended by its last packet. */
  lemma SplitLast(p: Problem, i: nat, f: seq<nat>) returns (front: seq<nat>, last: nat)
    requires i <= |p.sent| && 0 < |f| <= |p.reply| && IsMatching(f, i, |f|)
    ensures f == front + [last] && |front| == |f| - 1 && last < i && IsMatching(front, last, |front|)
    ensures TotalError(p, f) == TotalError(p, front) + MatchError(p, last, |front|)
  {
    front, last := f[..|f| - 1], f[|f| - 1];
    assert f == front + [last];
  }

  lemma {:induction false} LatestCostsBest(p: Problem, i: nat, j: nat)
    requires j <= i <= |p.sent| && j <= |p.reply|
    ensures TotalError(p, Latest(p, i, j)) == Best(p, i, j)
    decreases i
  {
    if j == 0 {
    } else if SkipsLast(p, i, j) {
      LatestCostsBest(p, i - 1, j);
    } else {
      LatestCostsBest(p, i - 1, j - 1);
      TotalErrorOfExtension(p, Latest(p, i - 1, j - 1), i - 1);
    }
  }

  lemma {:induction false} BestIsLeast(p: Problem, i: nat, j: nat, f: seq<nat>)
    requires i <= |p.sent| && j <= |p.reply| && IsMatching(f, i, j)
    ensures j <= i && Best(p, i, j) <= TotalError(p, f)
    decreases i
  {
    if j > 0 {
      var front, last := SplitLast(p, i, f);
      if last == i - 1 {
        BestIsLeast(p, i - 1, j - 1, front);
      } else {
        BestIsLeast(p, i - 1, j, f);
      }
    }
  }

  // ---------------------------------------------------------------- exchange argument

  /** The later, reply by reply, of two matchings. */
  ghost function Join(f: seq<nat>, g: seq<nat>): (h: seq<nat>)
    requires |f| == |g|
    ensures |h| == |f| && forall k :: 0 <= k < |h| ==> h[k] == if f[k] >= g[k] then f[k] else g[k]
  {
    seq(|f|, k requires 0 <= k < |f| => if f[k] >= g[k] then f[k] else g[k])
  }

  /** The earlier, reply by reply, of two matchings. */
  ghost function Meet(f: seq<nat>, g: seq<nat>): (h: seq<nat>)
    requires |f| == |g|
    ensures |h| == |f| && forall k :: 0 <= k < |h| ==> h[k] == if f[k] >= g[k] then g[k] else f[k]
  {
    seq(|f|, k requires 0 <= k < |f| => if f[k] >= g[k] then g[k] else f[k])
  }

  /** The later and the earlier of two matchings are matchings again. */
  lemma JoinMeetMatch(f: seq<nat>, i: nat, g: seq<nat>, j: nat)
    requires |f| == |g| && IsMatching(f, i, |f|) && IsMatching(g, j, |g|)
    ensures IsMatching(Join(f, g), if i >= j then i else j, |f|)
    ensures IsMatching(Meet(f, g), if i >= j then j else i, |f|)
  {
    forall k, l | 0 <= k < l < |f|
      ensures Join(f, g)[k] < Join(f, g)[l] && Meet(f, g)[k] < Meet(f, g)[l]
    {
      assert f[k] < f[l] && g[k] < g[l];
    }
  }

  lemma JoinMeetOfExtensions(f: seq<nat>, a: nat, g: seq<nat>, b: nat)
    requires |f| == |g|
    ensures Join(f + [a], g + [b]) == Join(f, g) + [if a >= b then a else b]
    ensures Meet(f + [a], g + [b]) == Meet(f, g) + [if a >= b then b else a]
  {
  }

  /** Taking the later and the earlier of two matchings keeps their total error. */
  lemma {:induction false} JoinMeetError(p: Problem, f: seq<nat>, g: seq<nat>, i: nat)
    requires i <= |p.sent| && |f| == |g| <= |p.reply|
    requires IsMatching(f, i, |f|) && IsMatching(g, i, |g|)
    ensures IsMatching(Join(f, g), i, |f|) && IsMatching(Meet(f, g), i, |f|)
    ensures TotalError(p, Join(f, g)) + TotalError(p, Meet(f, g)) == TotalError(p, f) + TotalError(p, g)
    decreases |f|
  {
    JoinMeetMatch(f, i, g, i);
    if f == [] {
      assert f == g == Join(f, g) == Meet(f, g);
    } else {
      var front, a := SplitLast(p, i, f);
      var back, b := SplitLast(p, i, g);
      hide IsMatching, TotalError, MatchError;
      Widen(front, a, i);
      Widen(back, b, i);
      JoinMeetError(p, front, back, i);
      JoinMeetOfExtensions(front, a, back, b);
      JoinMeetMatch(front, a, back, b);
      TotalErrorOfExtension(p, Join(front, back), if a >= b then a else b);
      TotalErrorOfExtension(p, Meet(front, back), if a >= b then b else a);
    }
  }

  /**
   The later of a cheapest matching `front + [last]` of `j` replies and a cheapest matching
   `g` of `j - 1` replies is itself cheapest for `j - 1` replies: otherwise the earlier of the
   two, extended by `last`, would beat `front + [last]`.
   */
  lemma JoinIsCheapest(p: Problem, i: nat, front: seq<nat>, last: nat, g: seq<nat>)
    requires |g| == |front| < i <= |p.sent| && |front| < |p.reply| && last < i
    requires IsMatching(front, last, |front|) && IsMatching(g, i, |g|)
    requires TotalError(p, front) + MatchError(p, last, |front|) == Best(p, i, |front| + 1)
    requires TotalError(p, g) == Best(p, i, |g|)
    ensures IsMatching(Join(front, g), i, |g|)
    ensures TotalError(p, Join(front, g)) == Best(p, i, |g|)
  {
    ExtendedMeet(p, i, front, last, g);
    BestIsLeast(p, i, |g|, Join(front, g));
    BestIsLeast(p, i, |g| + 1, Meet(front, g) + [last]);
  }

  lemma ExtendedMeet(p: Problem, i: nat, front: seq<nat>, last: nat, g: seq<nat>)
    requires |g| == |front| < i <= |p.sent| && |front| < |p.reply| && last < i
    requires IsMatching(front, last, |front|) && IsMatching(g, i, |g|)
    ensures IsMatching(Join(front, g), i, |g|) && IsMatching(Meet(front, g) + [last], i, |g| + 1)
    ensures TotalError(p, Join(front, g)) + TotalError(p, Meet(front, g) + [last]) ==
            TotalError(p, g) + TotalError(p, front) + MatchError(p, last, |front|)
  {
    MeetStaysBelow(front, last, g, i);
    hide IsMatching, TotalError, MatchError;
    JoinMeetError(p, front, g, i);
    TotalErrorOfExtension(p, Meet(front, g), last);
    Widen(Meet(front, g) + [last], last + 1, i);
  }

  lemma Widen(f: seq<nat>, i: nat, j: nat)
    requires IsMatching(f, i, |f|) && i <= j
    ensures IsMatching(f, j, |f|)
  {
  }

  lemma MeetStaysBelow(front: seq<nat>, last: nat, g: seq<nat>, i: nat)
    requires |g| == |front| && last < i && IsMatching(front, last, |front|) && IsMatching(g, i, |g|)
    ensures IsMatching(front, i, |front|) && IsMatching(Meet(front, g), last, |front|)
  {
    Widen(front, last, i);
    JoinMeetMatch(front, last, g, i);
  }

  lemma {:induction false} LatestIsLatest(p: Problem, i: nat, j: nat, f: seq<nat>)
    requires j <= i <= |p.sent| && j <= |p.reply|
    requires IsMatching(f, i, j) && TotalError(p, f) == Best(p, i, j)
    ensures forall k :: 0 <= k < j ==> f[k] <= Latest(p, i, j)[k]
    decreases i
  {
    if j > 0 {
      var front, last := SplitLast(p, i, f);
      if last == i - 1 {
        BestIsLeast(p, i - 1, j - 1, front);
        LatestIsLatest(p, i - 1, j - 1, front);
      } else if SkipsLast(p, i, j) {
        LatestIsLatest(p, i - 1, j, f);
      } else {
        BestIsLeast(p, last, j - 1, front);
        SkippedByCheapest(p, i, j, front, last);
      }
    }
  }

  /** In a tie the rival is cheapest without packet `i - 1` too. */
  lemma TieIsExact(p: Problem, i: nat, j: nat, front: seq<nat>, last: nat)
    requires 0 < j < i <= |p.sent| && j <= |p.reply| && !SkipsLast(p, i, j)
    requires |front| == j - 1 && last < i - 1 && IsMatching(front, last, j - 1)
    requires TotalError(p, front) + MatchError(p, last, j - 1) == Best(p, i, j)
    ensures TotalError(p, front) + MatchError(p, last, j - 1) == Best(p, i - 1, j)
  {
    hide TotalError, MatchError;
    TotalErrorOfExtension(p, front, last);
    BestIsLeast(p, i - 1, j, front + [last]);
  }

  /** The tie of `LatestIsLatest`: the recurrence uses packet `i - 1`, the rival does not. */
  lemma {:induction false} SkippedByCheapest(p: Problem, i: nat, j: nat, front: seq<nat>, last: nat)
    requires 0 < j < i <= |p.sent| && j <= |p.reply| && !SkipsLast(p, i, j)
    requires |front| == j - 1 && last < i - 1 && IsMatching(front, last, j - 1)
    requires TotalError(p, front) + MatchError(p, last, j - 1) == Best(p, i, j)
    ensures forall k :: 0 <= k < j ==> (front + [last])[k] <= Latest(p, i, j)[k]
    decreases i, 0
  {
    hide SkipsLast, Best, Latest, TotalError, MatchError, IsMatching;
    LatestUsesLast(p, i, j);
    var g := Latest(p, i - 1, j - 1);
    TieIsExact(p, i, j, front, last);
    LatestCostsBest(p, i - 1, j - 1);
    JoinIsCheapest(p, i - 1, front, last, g);
    LatestIsLatest(p, i - 1, j - 1, Join(front, g));
    NoLaterThanJoin(front, last, g, i - 1);
  }

  lemma LatestUsesLast(p: Problem, i: nat, j: nat)
    requires 0 < j <= i <= |p.sent| && j <= |p.reply| && !SkipsLast(p, i, j)
    ensures |Latest(p, i - 1, j - 1)| == j - 1 && Latest(p, i, j) == Latest(p, i - 1, j - 1) + [i - 1]
  {
  }

  /** If even the later of two is no later than `g`, so is the first, and so are its extensions. */
  lemma NoLaterThanJoin(front: seq<nat>, last: nat, g: seq<nat>, top: nat)
    requires |front| == |g| && last <= top && forall k :: 0 <= k < |g| ==> Join(front, g)[k] <= g[k]
    ensures forall k :: 0 <= k < |g| + 1 ==> (front + [last])[k] <= (g + [top])[k]
  {
    forall k | 0 <= k < |g|
      ensures front[k] <= g[k]
    {
      assert Join(front, g)[k] <= g[k];
    }
  }

  /** The matching the recurrence follows is cheapest, and the latest of the cheapest. */
  lemma LatestMatchingIsOptimal(p: Problem)
    requires |p.reply| <= |p.sent|
    ensures IsLatestCheapest(p, Latest(p, |p.sent|, |p.reply|))
  {
    var n, m := |p.sent|, |p.reply|;
    var f := Latest(p, n, m);
    LatestCostsBest(p, n, m);
    forall g | IsMatching(g, n, m)
      ensures TotalError(p, f) <= TotalError(p, g)
    {
      BestIsLeast(p, n, m, g);
    }
    forall g, k | IsCheapest(p, g) && 0 <= k < |f|
      ensures g[k] <= f[k]
    {
      BestIsLeast(p, n, m, g);
      LatestIsLatest(p, n, m, g);
    }
  }

  /** There is only one such matching, so the contract of the matcher determines its answer. */
  lemma LatestCheapestIsUnique(p: Problem, f: seq<nat>, g: seq<nat>)
    requires IsLatestCheapest(p, f) && IsLatestCheapest(p, g)
    ensures f == g
  {
    forall k | 0 <= k < |f|
      ensures f[k] == g[k]
    {
      assert IsCheapest(p, g) && IsCheapest(p, f);
      assert g[k] <= f[k] && f[k] <= g[k];
    }
  }

  // ---------------------------------------------------------------- what the cheapest matching means

  /** Every reply came exactly one RTT after the packet it is attributed to. */
  ghost predicate IsExact(p: Problem, f: seq<nat>) {
    forall k :: 0 <= k < |f| && k < |p.reply| && f[k] < |p.sent| ==> p.reply[k] - p.sent[f[k]] == p.rtt
  }

  /**
   Reply `k` cannot do better on its own: of the packets between those of the replies before and
   after it, its own comes nearest to one RTT before the reply, and is the last that does.
   */
  ghost predicate IsNearest(p: Problem, f: seq<nat>, k: int)
    requires 0 <= k < |f| <= |p.reply| && IsMatching(f, |p.sent|, |f|)
  {
    forall i :: (if k == 0 then 0 else f[k - 1] + 1) <= i < (if k + 1 == |f| then |p.sent| else f[k + 1]) ==>
      && Abs(p.reply[k] - p.sent[f[k]] - p.rtt) <= Abs(p.reply[k] - p.sent[i] - p.rtt)
      && (i > f[k] ==> Abs(p.reply[k] - p.sent[f[k]] - p.rtt) < Abs(p.reply[k] - p.sent[i] - p.rtt))
  }

  lemma {:induction false} ExactCostsNothing(p: Problem, f: seq<nat>)
    requires |f| <= |p.reply| && IsMatching(f, |p.sent|, |f|)
    ensures TotalError(p, f) >= 0.0 && (TotalError(p, f) == 0.0 <==> IsExact(p, f))
    decreases |f|
  {
    if f != [] {
      var front, last := f[..|f| - 1], f[|f| - 1];
      ExactCostsNothing(p, front);
      assert f == front + [last];
      assert MatchError(p, last, |front|) == 0.0 <==> p.reply[|front|] - p.sent[last] == p.rtt;
      assert IsExact(p, f) <==> IsExact(p, front) && p.reply[|front|] - p.sent[last] == p.rtt by {
        assert forall k :: 0 <= k < |front| ==> f[k] == front[k];
      }
    }
  }

  /** If all replies can have come one RTT after their packets, this is what is found. */
  lemma ExactMatchingIsFound(p: Problem, f: seq<nat>, g: seq<nat>)
    requires IsLatestCheapest(p, f) && IsMatching(g, |p.sent|, |p.reply|) && IsExact(p, g)
    ensures IsExact(p, f)
    ensures (forall a, b :: 0 <= a < b < |p.sent| ==> p.sent[a] != p.sent[b]) ==> f == g
  {
    ExactCostsNothing(p, f);
    ExactCostsNothing(p, g);
    if forall a, b :: 0 <= a < b < |p.sent| ==> p.sent[a] != p.sent[b] {
      forall k | 0 <= k < |f|
        ensures f[k] == g[k]
      {
        assert p.sent[f[k]] == p.sent[g[k]];
      }
    }
  }

  /** Moving one reply to another packet changes the error by that reply's. */
  lemma {:induction false} ErrorOfMove(p: Problem, f: seq<nat>, k: nat, i: nat)
    requires k < |f| <= |p.reply| && IsMatching(f, |p.sent|, |f|)
    requires i < |p.sent| && IsMatching(f[k := i], |p.sent|, |f|)
    ensures TotalError(p, f[k := i]) - TotalError(p, f) == MatchError(p, i, k) - MatchError(p, f[k], k)
    decreases |f|
  {
    var g, n := f[k := i], |f| - 1;
    hide MatchError;
    if k == n {
      assert g[..n] == f[..n];
    } else {
      assert g[..n] == f[..n][k := i];
      assert forall l :: 0 <= l < n ==> g[..n][l] == g[l];
      ErrorOfMove(p, f[..n], k, i);
    }
  }

  /** No reply of the latest cheapest matching can do better on its own. */
  lemma EveryReplyIsNearest(p: Problem, f: seq<nat>, k: nat)
    requires IsLatestCheapest(p, f) && k < |f|
    ensures IsNearest(p, f, k)
  {
    forall i | (if k == 0 then 0 else f[k - 1] + 1) <= i < (if k + 1 == |f| then |p.sent| else f[k + 1])
      ensures Abs(p.reply[k] - p.sent[f[k]] - p.rtt) <= Abs(p.reply[k] - p.sent[i] - p.rtt)
      ensures i > f[k] ==> Abs(p.reply[k] - p.sent[f[k]] - p.rtt) < Abs(p.reply[k] - p.sent[i] - p.rtt)
    {
      MovedBetween(f, |p.sent|, k, i);
      ErrorOfMove(p, f, k, i);
      if i > f[k] {
        assert f[k := i][k] > f[k];
        assert !IsCheapest(p, f[k := i]);
      }
    }
  }

  /**
   Given that the exact matching `g` exists, every reply is given to a packet sent exactly one RTT before
   it, and, if no two packets were sent at once, as `g` has it.
   */
  ghost predicate FindsExact(p: Problem, mapping: seq<Option<nat>>, g: seq<nat>) {
    && |mapping| == |p.sent|
    && (forall j :: 0 <= j < |p.reply| ==>
          exists i :: 0 <= i < |mapping| && mapping[i] == Some(j) && p.reply[j] - p.sent[i] == p.rtt)
    && ((forall a, b :: 0 <= a < b < |p.sent| ==> p.sent[a] != p.sent[b]) ==> Represents(mapping, g))
  }

  lemma ExactIsRepresented(p: Problem, mapping: seq<Option<nat>>, f: seq<nat>, g: seq<nat>)
    requires |mapping| == |p.sent| && Represents(mapping, f) && IsLatestCheapest(p, f)
    requires IsMatching(g, |p.sent|, |p.reply|) && IsExact(p, g)
    ensures FindsExact(p, mapping, g)
  {
    ExactMatchingIsFound(p, f, g);
    forall j | 0 <= j < |p.reply|
      ensures exists i :: 0 <= i < |mapping| && mapping[i] == Some(j) && p.reply[j] - p.sent[i] == p.rtt
    {
      assert mapping[f[j]] == Some(j);
    }
  }

  lemma MovedBetween(f: seq<nat>, n: nat, k: nat, i: nat)
    requires k < |f| && IsMatching(f, n, |f|)
    requires (if k == 0 then 0 else f[k - 1] + 1) <= i < (if k + 1 == |f| then n else f[k + 1])
    ensures IsMatching(f[k := i], n, |f|)
  {
    assert k > 0 ==> forall l :: 0 <= l < k - 1 ==> f[l] < f[k - 1];
    assert k + 1 < |f| ==> forall l :: k + 1 < l < |f| ==> f[k + 1] < f[l];
  }

  // ---------------------------------------------------------------- the table algorithm

  /** A table entry; `Infinite` is a cell no matching reaches. */
  datatype Cost = Finite(amount: real) | Infinite

  function Plus(c: Cost, e: real): Cost {
    if c.Finite? then Finite(c.amount + e) else Infinite
  }

  predicate Less(a: Cost, b: Cost) {
    a.Finite? && (b.Infinite? || a.amount < b.amount)
  }

  /** Where a table cell came from, and the reply it matches, if any. */
  datatype Step = Step(i: nat, j: nat, matched: Option<nat>)

  /** The value cell `(i, j)` must hold once filled. */
  ghost function CellCost(p: Problem, i: nat, j: nat): Cost
    requires i <= |p.sent| && j <= |p.reply|
  {
    if j <= i then Finite(Best(p, i, j)) else Infinite
  }

  /** The step cell `(i, j)` must hold once filled. */
  ghost function CellStep(p: Problem, i: nat, j: nat): Step
    requires 0 < i <= |p.sent| && j <= i && j <= |p.reply|
  {
    if j == 0 then Step(i - 1, 0, None)
    else if SkipsLast(p, i, j) then Step(i - 1, j, None)
    else Step(i - 1, j - 1, Some(j - 1))
  }

  /** Rows `0..rows` of the tables are filled, and row `rows` up to column `cols`. */
  ghost predicate Filled(p: Problem, dp: array2<Cost>, prev: array2<Option<Step>>, rows: nat, cols: nat)
    requires dp.Length0 == prev.Length0 == |p.sent| + 1 && dp.Length1 == prev.Length1 == |p.reply| + 1
    reads dp, prev
  {
    && (forall a, b :: 0 <= a < dp.Length0 && 0 <= b < dp.Length1 && (a < rows || b == 0 || (a == rows && b < cols)) ==>
          dp[a, b] == CellCost(p, a, b))
    && (forall a, b :: 0 <= a < dp.Length0 && 0 <= b < dp.Length1 && (a > rows || (a == rows && b >= cols)) && b > 0 ==>
          dp[a, b] == Infinite)
    && (forall a, b :: 0 < a < dp.Length0 && 0 <= b < dp.Length1 && b <= a &&
                       (a < rows || b == 0 || (a == rows && b < cols)) ==>
          prev[a, b] == Some(CellStep(p, a, b)))
  }

  method FillTables(p: Problem) returns (prev: array2<Option<Step>>)
    ensures fresh(prev) && prev.Length0 == |p.sent| + 1 && prev.Length1 == |p.reply| + 1
    ensures forall a, b :: 0 < a <= |p.sent| && 0 <= b <= |p.reply| && b <= a ==>
              prev[a, b] == Some(CellStep(p, a, b))
  {
    var n, m := |p.sent|, |p.reply|;
    var dp := new Cost[n + 1, m + 1]((_, _) => Infinite);
    prev := new Option<Step>[n + 1, m + 1]((_, _) => None);
    dp[0, 0] := Finite(0.0);
    for i := 1 to n + 1
      invariant forall a, b :: 0 <= a <= n && 0 <= b <= m ==>
                  dp[a, b] == if b == 0 && a < i then Finite(0.0) else Infinite
      invariant forall a :: 1 <= a < i ==> prev[a, 0] == Some(Step(a - 1, 0, None))
    {
      dp[i, 0] := Finite(0.0);
      prev[i, 0] := Some(Step(i - 1, 0, None));
    }
    for i := 1 to n + 1
      invariant Filled(p, dp, prev, i, 1)
    {
      FillRow(p, dp, prev, i);
    }
  }

  /** One round of the outer loop: the cells of row `i` that a matching can reach. */
  method FillRow(p: Problem, dp: array2<Cost>, prev: array2<Option<Step>>, i: nat)
    requires dp.Length0 == prev.Length0 == |p.sent| + 1 && dp.Length1 == prev.Length1 == |p.reply| + 1
    requires 0 < i <= |p.sent| && Filled(p, dp, prev, i, 1)
    modifies dp, prev
    ensures Filled(p, dp, prev, i + 1, 1)
  {
    var upto := if i < |p.reply| then i else |p.reply|;
    for j := 1 to upto + 1
      invariant Filled(p, dp, prev, i, j)
    {
      FillCell(p, dp, prev, i, j);
    }
  }

  method FillCell(p: Problem, dp: array2<Cost>, prev: array2<Option<Step>>, i: nat, j: nat)
    requires dp.Length0 == prev.Length0 == |p.sent| + 1 && dp.Length1 == prev.Length1 == |p.reply| + 1
    requires 0 < j <= i <= |p.sent| && j <= |p.reply| && Filled(p, dp, prev, i, j)
    modifies dp, prev
    ensures Filled(p, dp, prev, i, j + 1)
  {
    assert dp[i - 1, j - 1] == CellCost(p, i - 1, j - 1);
    assert dp[i - 1, j] == CellCost(p, i - 1, j);
    var best := Plus(dp[i - 1, j - 1], MatchError(p, i - 1, j - 1));
    var bestPrev := Step(i - 1, j - 1, Some(j - 1));
    if Less(dp[i - 1, j], best) {
      best := dp[i - 1, j];
      bestPrev := Step(i - 1, j, None);
    }
    assert best == CellCost(p, i, j) && bestPrev == CellStep(p, i, j);
    dp[i, j] := best;
    prev[i, j] := Some(bestPrev);
  }

  /** The step stored in a cell leads to the prefix that `Latest` extends. */
  lemma StepFollowsLatest(p: Problem, i: nat, j: nat)
    requires 0 < i <= |p.sent| && j <= i && j <= |p.reply|
    ensures var s := CellStep(p, i, j);
            && s.i == i - 1 && s.j <= s.i && s.j <= j
            && Latest(p, i, j) == Latest(p, s.i, s.j) + (if s.matched.Some? then [i - 1] else [])
            && s.matched == (if s.j < j then Some(s.j) else None)
  {
  }

  /** The walk back through the tables has settled the sent packets from `i` on. */
  ghost predicate Settled(f: seq<nat>, result: seq<Option<nat>>, i: nat, j: nat)
    requires j <= |f|
  {
    && (forall k :: j <= k < |f| ==> i <= f[k] < |result| && result[f[k]] == Some(k))
    && (forall x :: 0 <= x < |result| && result[x].Some? ==>
          x >= i && j <= result[x].value < |f| && f[result[x].value] == x)
  }

  /** `result` after one step of the walk. */
  ghost function Apply(s: Step, i: nat, result: seq<Option<nat>>): seq<Option<nat>>
    requires 0 < i <= |result|
  {
    if s.matched.Some? then result[i - 1 := s.matched] else result
  }

  lemma WalkStep(p: Problem, f: seq<nat>, result: seq<Option<nat>>, i: nat, j: nat)
    requires 0 < i <= |p.sent| == |result| && j <= i && j <= |p.reply| == |f|
    requires f[..j] == Latest(p, i, j) && Settled(f, result, i, j)
    ensures var s := CellStep(p, i, j);
            && s.i == i - 1 && s.j <= s.i && s.j <= j
            && f[..s.j] == Latest(p, s.i, s.j) && Settled(f, Apply(s, i, result), s.i, s.j)
  {
    StepFollowsLatest(p, i, j);
    var s := CellStep(p, i, j);
    if s.matched.Some? {
      assert f[..j][j - 1] == i - 1 && f[..j][..j - 1] == f[..j - 1];
      SettleOne(f, result, i, j);
    }
  }

  lemma SettleOne(f: seq<nat>, result: seq<Option<nat>>, i: nat, j: nat)
    requires 0 < i <= |result| && 0 < j <= |f| && f[j - 1] == i - 1 && Settled(f, result, i, j)
    ensures Settled(f, result[i - 1 := Some(j - 1)], i - 1, j - 1)
  {
  }

  /** The walk back from the full problem; every cell it visits is set. */
  method WalkBack(p: Problem, prev: array2<Option<Step>>) returns (mapping: seq<Option<nat>>)
    requires |p.reply| <= |p.sent|
    requires prev.Length0 == |p.sent| + 1 && prev.Length1 == |p.reply| + 1
    requires forall a, b :: 0 < a <= |p.sent| && 0 <= b <= |p.reply| && b <= a ==>
               prev[a, b] == Some(CellStep(p, a, b))
    ensures |mapping| == |p.sent|
    ensures Settled(Latest(p, |p.sent|, |p.reply|), mapping, 0, 0)
  {
    var n, m := |p.sent|, |p.reply|;
    ghost var f := Latest(p, n, m);
    var i: nat, j: nat := n, m;
    var result := new Option<nat>[n](_ => None);
    assert f[..m] == f;
    while i > 0
      invariant j <= i <= n && j <= m
      invariant f[..j] == Latest(p, i, j)
      invariant Settled(f, result[..], i, j)
    {
      WalkStep(p, f, result[..], i, j);
      var step := prev[i, j].value;
      ghost var before := result[..];
      if step.matched.Some? {
        result[i - 1] := step.matched;
      }
      assert result[..] == Apply(step, i, before);
      i, j := step.i, step.j;
    }
    mapping := result[..];
  }

  /**
   `match_sent_reply_dp`. With more replies than sent packets the original stops on an unset
   table cell, hence the precondition.
   */
  method MatchSentReply(p: Problem) returns (mapping: seq<Option<nat>>)
    requires |p.reply| <= |p.sent|
    ensures |mapping| == |p.sent|
    ensures Represents(mapping, Latest(p, |p.sent|, |p.reply|))
    ensures exists f :: Represents(mapping, f) && IsLatestCheapest(p, f) &&
              forall k :: 0 <= k < |f| ==> IsNearest(p, f, k)
    ensures forall g :: IsMatching(g, |p.sent|, |p.reply|) && IsExact(p, g) ==> FindsExact(p, mapping, g)
  {
    var prev := FillTables(p);
    mapping := WalkBack(p, prev);
    ghost var f := Latest(p, |p.sent|, |p.reply|);
    assert Represents(mapping, f);
    LatestMatchingIsOptimal(p);
    hide Latest, Represents, IsMatching, IsExact, IsNearest, IsLatestCheapest, FindsExact;
    forall k | 0 <= k < |f|
      ensures IsNearest(p, f, k)
    {
      EveryReplyIsNearest(p, f, k);
    }
    forall g | IsMatching(g, |p.sent|, |p.reply|) && IsExact(p, g)
      ensures FindsExact(p, mapping, g)
    {
      ExactIsRepresented(p, mapping, f, g);
    }
  }
}
