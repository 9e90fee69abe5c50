/** The congestion controller (`pemi/src/cc.rs`): window arithmetic over whole runs of ACKs. */
module CongestionControl {
  import opened Base
  import opened WindowedMin

  datatype Direction = Up | Down

  /** The window state that ACKs change. */
  datatype Window = Window(
    cwnd: real, change: Time, v: real, direction: Direction, directionChange: Time, cwndAtChange: real, slowStart: bool)

  const V_MAX: real := 32.0

  /** 1/delta. */
  const DELTA_RECIPROCAL: real := 2.0

  const MIN_CWND: real := 10.0

  /** Ten seconds, and ten milliseconds. */
  const MIN_RTT_WINDOW: Duration := 10_000_000_000.0
  const MIN_STANDING_WINDOW: Duration := 10_000_000.0

  /** `Duration::MAX`: the whole seconds of 64 bits and all but one nanosecond of another. */
  const MAX_DURATION: Duration := 18_446_744_073_709_551_615_999_999_999.0

  /** A measured round-trip time. */
  type Rtt = r: real | 0.0 < r <= MAX_DURATION witness 1.0

  function Initial(now: Time): Window {
    Window(10.0, now, 1.0, Up, now, 10.0, true)
  }

  // ---------------------------------------------------------------- one ACK

  /** `cwnd_update_slow_start`. The end of slow start leaves the time of the last change as it is. */
  function SlowStart(w: Window, up: bool, now: Time, rtt: Rtt): Window {
    if up then
      var share := Since(now, w.change) / rtt;
      w.(cwnd := w.cwnd * (1.0 + (if share < 1.0 then share else 1.0)), change := now)
    else w.(cwnd := w.cwnd / 2.0, slowStart := false)
  }

  /** What velocity `v` is worth over the time `elapsed`. */
  function Paced(v: real, elapsed: Duration, rtt: Rtt): real {
    v * DELTA_RECIPROCAL * elapsed / rtt
  }

  function CwndDelta(w: Window, now: Time, rtt: Rtt): real {
    Paced(w.v, Since(now, w.change), rtt)
  }

  /** `cwnd_update`. */
  function Avoid(w: Window, up: bool, now: Time, rtt: Rtt): Window {
    var delta := CwndDelta(w, now, rtt);
    w.(cwnd := if up then w.cwnd + delta else MaxReal(w.cwnd - delta, MIN_CWND), change := now)
  }

  /** The velocity update at the end of `on_ack_send`, at most once per RTT. */
  function Turn(w: Window, now: Time, rtt: Rtt): Window {
    if Since(now, w.directionChange) > rtt then
      var d := if w.cwnd >= w.cwndAtChange then Up else Down;
      w.(direction := d, v := if d == w.direction then (if w.v * 2.0 < V_MAX then w.v * 2.0 else V_MAX) else 1.0,
         cwndAtChange := w.cwnd, directionChange := now)
    else w
  }

  /** One ACK; `up` says that the sending rate is below the target. */
  function AckStep(w: Window, up: bool, now: Time, rtt: Rtt): Window {
    Turn(if w.slowStart then SlowStart(w, up, now, rtt) else Avoid(w, up, now, rtt), now, rtt)
  }

  // ---------------------------------------------------------------- runs

  datatype Ack = Ack(up: bool, now: Time, rtt: Rtt)

  function AckRun(w: Window, acks: seq<Ack>): Window {
    if acks == [] then w
    else
      var a := acks[|acks| - 1];
      AckStep(AckRun(w, acks[..|acks| - 1]), a.up, a.now, a.rtt)
  }

  /** ACK times never go back, and start no earlier than the last window change. */
  ghost predicate Timely(acks: seq<Ack>, start: Time) {
    && (forall i :: 0 <= i < |acks| ==> start <= acks[i].now)
    && (forall i, j :: 0 <= i < j < |acks| ==> acks[i].now <= acks[j].now)
  }

  ghost predicate WindowOk(w: Window) {
    && w.cwnd >= 5.0
    && (w.slowStart ==> w.cwnd >= 10.0)
    && (w.v == 1.0 || w.v == 2.0 || w.v == 4.0 || w.v == 8.0 || w.v == 16.0 || w.v == 32.0)
  }

  lemma Quotient(a: real, b: real)
    requires a >= 0.0 && b > 0.0
    ensures a / b >= 0.0
  {
  }

  lemma DeltaIsNotNegative(w: Window, now: Time, rtt: Rtt)
    requires WindowOk(w)
    ensures CwndDelta(w, now, rtt) >= 0.0
  {
    Quotient(w.v * DELTA_RECIPROCAL * Since(now, w.change), rtt);
  }

  lemma Grows(c: real, share: real)
    requires c >= 0.0 && share >= 0.0
    ensures c * (1.0 + share) >= c
  {
    assert c * (1.0 + share) == c + c * share;
  }

  lemma SlowStartKeepsWindow(w: Window, up: bool, now: Time, rtt: Rtt)
    requires WindowOk(w) && w.slowStart
    ensures WindowOk(SlowStart(w, up, now, rtt))
  {
    var share := Since(now, w.change) / rtt;
    Quotient(Since(now, w.change), rtt);
    Grows(w.cwnd, if share < 1.0 then share else 1.0);
  }

  lemma AvoidKeepsWindow(w: Window, up: bool, now: Time, rtt: Rtt)
    requires WindowOk(w) && !w.slowStart
    ensures WindowOk(Avoid(w, up, now, rtt)) && !Avoid(w, up, now, rtt).slowStart
  {
    DeltaIsNotNegative(w, now, rtt);
    hide CwndDelta;
  }

  lemma TurnKeepsWindow(w: Window, now: Time, rtt: Rtt)
    requires WindowOk(w)
    ensures WindowOk(Turn(w, now, rtt)) && Turn(w, now, rtt).slowStart == w.slowStart
  {
  }

  lemma AckKeepsWindow(w: Window, up: bool, now: Time, rtt: Rtt)
    requires WindowOk(w)
    ensures WindowOk(AckStep(w, up, now, rtt))
    ensures !w.slowStart ==> !AckStep(w, up, now, rtt).slowStart
  {
    hide WindowOk, SlowStart, Avoid, Turn;
    if w.slowStart {
      SlowStartKeepsWindow(w, up, now, rtt);
      TurnKeepsWindow(SlowStart(w, up, now, rtt), now, rtt);
    } else {
      AvoidKeepsWindow(w, up, now, rtt);
      TurnKeepsWindow(Avoid(w, up, now, rtt), now, rtt);
    }
  }

  /** Over any run from the start: the window bounds, and slow start ends at most once. */
  lemma {:induction false} RunKeepsWindow(w: Window, acks: seq<Ack>)
    requires WindowOk(w)
    ensures WindowOk(AckRun(w, acks))
    ensures !w.slowStart ==> !AckRun(w, acks).slowStart
    decreases |acks|
  {
    if acks != [] {
      var a, before := acks[|acks| - 1], acks[..|acks| - 1];
      RunKeepsWindow(w, before);
      AckKeepsWindow(AckRun(w, before), a.up, a.now, a.rtt);
    }
  }

  /** In a run, once slow start has ended it stays ended. */
  lemma SlowStartEndsOnce(w: Window, before: seq<Ack>, after: seq<Ack>)
    requires WindowOk(w) && !AckRun(w, before).slowStart
    ensures !AckRun(w, before + after).slowStart
  {
    RunKeepsWindow(w, before);
    RunSplits(w, before, after);
    RunKeepsWindow(AckRun(w, before), after);
  }

  lemma {:induction false} RunSplits(w: Window, before: seq<Ack>, after: seq<Ack>)
    ensures AckRun(w, before + after) == AckRun(AckRun(w, before), after)
    decreases |after|
  {
    if after == [] {
      assert before + after == before;
    } else {
      var n := |after| - 1;
      RunSplits(w, before, after[..n]);
      assert (before + after)[..|before| + n] == before + after[..n];
    }
  }

  // ---------------------------------------------------------------- velocity

  /** When the ACK at the end came after, the run having begun at `start`. */
  function Previous(acks: seq<Ack>, start: Time): Time {
    if |acks| < 2 then start else acks[|acks| - 2].now
  }

  /** Every ACK comes more than its RTT after the one before, the first after `start`. */
  ghost predicate Spaced(acks: seq<Ack>, start: Time) {
    acks == [] ||
      var a := acks[|acks| - 1];
      a.now > Previous(acks, start) + a.rtt && Spaced(acks[..|acks| - 1], start)
  }

  /** Every ACK comes at least its RTT after the one before, the first after `start`. */
  ghost predicate Apart(acks: seq<Ack>, start: Time) {
    acks == [] ||
      var a := acks[|acks| - 1];
      a.now >= Previous(acks, start) + a.rtt && Apart(acks[..|acks| - 1], start)
  }

  /** Every ACK leaves the window on the same side of where the one before left it: not below it, if `up`. */
  ghost predicate Heads(w: Window, acks: seq<Ack>, up: bool) {
    acks == [] ||
      var before := acks[..|acks| - 1];
      && (AckRun(w, acks).cwnd >= (if before == [] then w.cwndAtChange else AckRun(w, before).cwnd) <==> up)
      && Heads(w, before, up)
  }

  /** The lesser of 32 and `v` doubled `n` times. */
  function Doubled(v: real, n: nat): real {
    if Power(2.0, n) * v < 32.0 then Power(2.0, n) * v else 32.0
  }

  lemma DoubledOnce(v: real, n: nat)
    requires 0.0 <= v
    ensures 2.0 * Doubled(v, n) <= 32.0 ==> Doubled(v, n + 1) == 2.0 * Doubled(v, n)
    ensures 2.0 * Doubled(v, n) >= 32.0 ==> Doubled(v, n + 1) == 32.0
  {
    assert Power(2.0, n + 1) * v == 2.0 * (Power(2.0, n) * v);
  }

  /** As long as the window keeps its direction, the velocity doubles with every ACK, up to 32. */
  lemma {:induction false} VelocityDoubles(w: Window, acks: seq<Ack>)
    requires WindowOk(w) && Spaced(acks, w.directionChange) && Heads(w, acks, w.direction == Up)
    ensures var z := AckRun(w, acks);
            && z.v == Doubled(w.v, |acks|) && z.direction == w.direction
            && (acks != [] ==> z.directionChange == acks[|acks| - 1].now && z.cwndAtChange == z.cwnd)
    decreases |acks|
  {
    if acks == [] {
      assert Power(2.0, 0) * w.v == w.v;
    } else {
      hide AckStep, WindowOk, Doubled;
      var before, a := acks[..|acks| - 1], acks[|acks| - 1];
      VelocityDoubles(w, before);
      TurnIsExact(AckRun(w, before), a);
      VelocityIsPositive(w);
      DoubledOnce(w.v, |before|);
    }
  }

  lemma VelocityIsPositive(w: Window)
    requires WindowOk(w)
    ensures w.v > 0.0
  {
  }

  /** One ACK: within an RTT of the last turn nothing changes, later the direction is looked at. */
  lemma TurnIsExact(w: Window, a: Ack)
    ensures var z := AckStep(w, a.up, a.now, a.rtt);
            if a.now <= w.directionChange + a.rtt then
              && z.v == w.v && z.direction == w.direction
              && z.directionChange == w.directionChange && z.cwndAtChange == w.cwndAtChange
            else
              && z.directionChange == a.now && z.cwndAtChange == z.cwnd
              && (z.direction == Up <==> z.cwnd >= w.cwndAtChange)
              && (z.direction != w.direction ==> z.v == 1.0)
              && (z.direction == w.direction && 2.0 * w.v <= 32.0 ==> z.v == 2.0 * w.v)
              && (z.direction == w.direction && 2.0 * w.v >= 32.0 ==> z.v == 32.0)
  {
    hide CwndDelta;
  }

  lemma UpGrows(w: Window, now: Time, rtt: Rtt)
    requires WindowOk(w)
    ensures AckStep(w, true, now, rtt).cwnd >= w.cwnd
  {
    DeltaIsNotNegative(w, now, rtt);
    Quotient(Since(now, w.change), rtt);
    var share := Since(now, w.change) / rtt;
    Grows(w.cwnd, if share < 1.0 then share else 1.0);
    hide CwndDelta;
  }

  /** ACKs that go up, each more than its RTT after the one before, double the velocity of a window going up. */
  lemma UpRunDoubles(w: Window, acks: seq<Ack>)
    requires WindowOk(w) && w.direction == Up && w.cwnd >= w.cwndAtChange && Spaced(acks, w.directionChange)
    requires forall i :: 0 <= i < |acks| ==> acks[i].up
    ensures AckRun(w, acks).v == Doubled(w.v, |acks|) && AckRun(w, acks).direction == Up
  {
    UpRunHeadsUp(w, acks);
    VelocityDoubles(w, acks);
  }

  lemma {:induction false} UpRunHeadsUp(w: Window, acks: seq<Ack>)
    requires WindowOk(w) && w.cwnd >= w.cwndAtChange && forall i :: 0 <= i < |acks| ==> acks[i].up
    ensures Heads(w, acks, true)
    decreases |acks|
  {
    if acks != [] {
      hide AckStep, WindowOk;
      var before, a := acks[..|acks| - 1], acks[|acks| - 1];
      UpRunHeadsUp(w, before);
      RunKeepsWindow(w, before);
      UpGrows(AckRun(w, before), a.now, a.rtt);
    }
  }

  /** The first ACK, more than its RTT after the last turn, that turns the window resets the velocity. */
  lemma FirstTurnResets(w: Window, acks: seq<Ack>, a: Ack)
    ensures var x, z := AckRun(w, acks), AckRun(w, acks + [a]);
            a.now > x.directionChange + a.rtt && (z.cwnd >= x.cwndAtChange <==> x.direction == Down) ==>
              z.v == 1.0 && z.direction != x.direction && z.directionChange == a.now
  {
    hide AckStep;
    assert (acks + [a])[..|acks|] == acks;
    TurnIsExact(AckRun(w, acks), a);
  }

  /** Within one RTT of the last turn the velocity and the direction stay, however many ACKs come. */
  lemma {:induction false} HeldWithinRtt(w: Window, acks: seq<Ack>)
    requires forall i :: 0 <= i < |acks| ==> acks[i].now <= w.directionChange + acks[i].rtt
    ensures var z := AckRun(w, acks);
            z.v == w.v && z.direction == w.direction && z.directionChange == w.directionChange
    decreases |acks|
  {
    hide AckStep;
    if acks != [] {
      var n := |acks| - 1;
      HeldWithinRtt(w, acks[..n]);
      TurnIsExact(AckRun(w, acks[..n]), acks[n]);
    }
  }

  /** In slow start, ACKs that go up, each at least its RTT after the one before, double the window. */
  lemma {:induction false} SlowStartDoubles(w: Window, acks: seq<Ack>)
    requires WindowOk(w) && w.slowStart && Apart(acks, w.change) && forall i :: 0 <= i < |acks| ==> acks[i].up
    ensures var z := AckRun(w, acks);
            && z.slowStart && z.cwnd == Power(2.0, |acks|) * w.cwnd
            && z.change == if acks == [] then w.change else acks[|acks| - 1].now
    decreases |acks|
  {
    if acks == [] {
      assert Power(2.0, 0) * w.cwnd == w.cwnd;
    } else {
      hide AckStep, WindowOk;
      var n := |acks| - 1;
      SlowStartDoubles(w, acks[..n]);
      RunKeepsWindow(w, acks[..n]);
      SlowStartIsExact(AckRun(w, acks[..n]), acks[n]);
      assert 2.0 * (Power(2.0, n) * w.cwnd) == Power(2.0, n + 1) * w.cwnd;
    }
  }

  /**
   One ACK in slow start: a window going up grows by the share of its RTT that has passed, and at most
   doubles; going down it is halved, and slow start is over.
   */
  lemma SlowStartIsExact(w: Window, a: Ack)
    requires w.slowStart
    ensures var z, t := AckStep(w, a.up, a.now, a.rtt), Since(a.now, w.change);
            && z.slowStart == a.up && z.change == (if a.up then a.now else w.change)
            && (!a.up ==> 2.0 * z.cwnd == w.cwnd)
            && (a.up && t < a.rtt ==> (z.cwnd - w.cwnd) * a.rtt == w.cwnd * t)
            && (a.up && t >= a.rtt ==> z.cwnd == 2.0 * w.cwnd)
  {
    var t := Since(a.now, w.change);
    AtLeastOne(t, a.rtt);
    ShareOf(w.cwnd, t, a.rtt);
  }

  /** One ACK later: the window moves by the velocity, and does not go below 10. */
  lemma AvoidanceIsExact(w: Window, a: Ack)
    requires !w.slowStart
    ensures var z, t := AckStep(w, a.up, a.now, a.rtt), Since(a.now, w.change);
            && !z.slowStart && z.change == a.now
            && (a.up ==> (z.cwnd - w.cwnd) * a.rtt == 2.0 * w.v * t)
            && (!a.up ==> z.cwnd >= 10.0 && (z.cwnd - w.cwnd) * a.rtt >= -(2.0 * w.v * t))
            && (!a.up && z.cwnd > 10.0 ==> (z.cwnd - w.cwnd) * a.rtt == -(2.0 * w.v * t))
  {
    var z, t, delta := AckStep(w, a.up, a.now, a.rtt), Since(a.now, w.change), CwndDelta(w, a.now, a.rtt);
    DeltaTimesRtt(w.v, t, a.rtt);
    hide Paced;
    Moved(w.cwnd, delta, a.rtt);
    assert z.cwnd == if a.up then w.cwnd + delta else MaxReal(w.cwnd - delta, 10.0);
  }

  lemma DeltaTimesRtt(v: real, t: Duration, rtt: Rtt)
    ensures Paced(v, t, rtt) * rtt == 2.0 * v * t
  {
    var work := v * DELTA_RECIPROCAL * t;
    assert work / rtt * rtt == work;
    assert work == 2.0 * v * t;
  }

  lemma ShareOf(c: real, t: real, rtt: Rtt)
    ensures (c * (1.0 + t / rtt) - c) * rtt == c * t
  {
    var q := t / rtt;
    assert q * rtt == t;
    assert (c * (1.0 + q) - c) * rtt == c * (q * rtt);
  }

  lemma Moved(c: real, delta: real, rtt: Rtt)
    ensures (c + delta - c) * rtt == delta * rtt && (c - delta - c) * rtt == -(delta * rtt)
    ensures (MaxReal(c - delta, 10.0) - c) * rtt >= -(delta * rtt)
    ensures MaxReal(c - delta, 10.0) > 10.0 ==> (MaxReal(c - delta, 10.0) - c) * rtt == -(delta * rtt)
  {
    Scaled(MaxReal(c - delta, 10.0) - c, -delta, rtt);
  }

  lemma AtLeastOne(t: real, rtt: Rtt)
    ensures t / rtt < 1.0 <==> t < rtt
  {
    var q := t / rtt;
    assert q * rtt == t;
    assert (q - 1.0) * rtt == t - rtt;
  }

  lemma Scaled(a: real, b: real, c: real)
    requires a >= b && c > 0.0
    ensures a * c >= b * c
  {
    assert (a - b) * c >= 0.0;
  }

  // ---------------------------------------------------------------- growth in congestion avoidance

  lemma SmallerDivisor(a: real, b: real, c: real)
    requires a >= 0.0 && b >= c > 0.0
    ensures a / b <= a / c
  {
    var q := a / b;
    assert q * b == a;
    Quotient(a, b);
    assert q * c <= q * b by {
      assert q * (b - c) >= 0.0;
    }
    assert q * c <= a;
    AtMostQuotient(q, a, c);
  }

  lemma AtMostQuotient(q: real, a: real, c: real)
    requires c > 0.0 && q * c <= a
    ensures q <= a / c
  {
    var d := a / c - q;
    assert d * c == a - q * c;
  }

  lemma LargerDividend(a: real, b: real, c: real)
    requires a <= b && c > 0.0
    ensures a / c <= b / c
  {
    assert (a / c) * c == a;
    AtMostQuotient(a / c, b, c);
  }

  /** One ACK adds at most `64 * (time since the last change) / least`. */
  lemma DeltaIsBounded(w: Window, now: Time, rtt: Rtt, least: Rtt)
    requires WindowOk(w) && rtt >= least
    ensures CwndDelta(w, now, rtt) <= 64.0 * Since(now, w.change) / least
  {
    var t := Since(now, w.change);
    var work := w.v * DELTA_RECIPROCAL * t;
    assert 0.0 <= work <= 64.0 * t;
    SmallerDivisor(work, rtt, least);
    LargerDividend(work, 64.0 * t, least);
  }

  /** The growth allowed over the time `elapsed`: 64 per least RTT. */
  function Allowance(elapsed: real, least: Rtt): real {
    64.0 * elapsed / least
  }

  lemma SumOfQuotients(a: real, b: real, c: real)
    requires c > 0.0
    ensures 64.0 * a / c + 64.0 * b / c == 64.0 * (a + b) / c
  {
  }

  /**
   From any state of congestion avoidance, however many ACKs arrive: the window exceeds its
   start by at most 64 per least RTT elapsed since the change the run starts from.
   */
  lemma {:induction false} AvoidanceGrowth(w: Window, acks: seq<Ack>, least: Rtt)
    requires WindowOk(w) && !w.slowStart && Timely(acks, w.change)
    requires forall i :: 0 <= i < |acks| ==> acks[i].rtt >= least
    ensures var z := AckRun(w, acks);
            && WindowOk(z) && !z.slowStart
            && w.change <= z.change == (if acks == [] then w.change else acks[|acks| - 1].now)
            && z.cwnd <= MaxReal(w.cwnd, MIN_CWND) + Allowance(z.change - w.change, least)
    decreases |acks|
  {
    RunKeepsWindow(w, acks);
    if acks != [] {
      var a, before := acks[|acks| - 1], acks[..|acks| - 1];
      AvoidanceGrowth(w, before, least);
      RunKeepsWindow(w, before);
      var y := AckRun(w, before);
      assert y.change <= a.now;
      DeltaIsNotNegative(y, a.now, a.rtt);
      DeltaIsBounded(y, a.now, a.rtt, least);
      SumOfQuotients(y.change - w.change, a.now - y.change, least);
      Quotient(64.0 * (a.now - w.change), least);
    }
  }

  /** The bound on the window, counted from the moment `t0`. */
  ghost predicate BoundedFrom(w: Window, t0: Time, least: Rtt, z: Window, now: Time) {
    z.cwnd <= MaxReal(w.cwnd, MIN_CWND) + Allowance(now - t0, least)
  }

  /** Any run of ACKs from `t0` on stays within the bound counted from `t0`. */
  ghost predicate GrowthCountsFrom(w: Window, t0: Time, least: Rtt) {
    forall acks: seq<Ack> ::
      acks != [] && Timely(acks, t0) && (forall i :: 0 <= i < |acks| ==> acks[i].rtt >= least) ==>
        BoundedFrom(w, t0, least, AckRun(w, acks), acks[|acks| - 1].now)
  }

  /**
   The end of slow start keeps the time of the last increase, so the growth is to be counted
   from there. It may be counted from the end itself, or from any later moment, exactly when the
   time since the last change is not worth more than the distance to the minimum window.
   */
  lemma GrowthFromExit(w: Window, t0: Time, least: Rtt)
    requires WindowOk(w) && !w.slowStart && w.change <= t0
    ensures GrowthCountsFrom(w, t0, least) <==> w.cwnd + CwndDelta(w, t0, least) <= MaxReal(w.cwnd, MIN_CWND)
  {
    if w.cwnd + CwndDelta(w, t0, least) <= MaxReal(w.cwnd, MIN_CWND) {
      forall acks: seq<Ack> | acks != [] && Timely(acks, t0) && (forall i :: 0 <= i < |acks| ==> acks[i].rtt >= least)
        ensures BoundedFrom(w, t0, least, AckRun(w, acks), acks[|acks| - 1].now)
      {
        GrowthFromFirstAck(w, t0, least, acks);
      }
    } else {
      FirstAckExceeds(w, t0, least);
    }
  }

  lemma FirstAckExceeds(w: Window, t0: Time, least: Rtt)
    requires !w.slowStart && w.cwnd + CwndDelta(w, t0, least) > MaxReal(w.cwnd, MIN_CWND)
    ensures !GrowthCountsFrom(w, t0, least)
  {
    var acks := [Ack(true, t0, least)];
    assert acks[..0] == [];
    assert AckRun(w, acks) == AckStep(w, true, t0, least);
    assert 64.0 * (t0 - t0) / least == 0.0;
    hide CwndDelta;
    assert Timely(acks, t0);
    assert !BoundedFrom(w, t0, least, AckRun(w, acks), acks[|acks| - 1].now);
  }

  lemma GrowthFromFirstAck(w: Window, t0: Time, least: Rtt, acks: seq<Ack>)
    requires WindowOk(w) && !w.slowStart && w.change <= t0
    requires w.cwnd + CwndDelta(w, t0, least) <= MaxReal(w.cwnd, MIN_CWND)
    requires acks != [] && Timely(acks, t0) && forall i :: 0 <= i < |acks| ==> acks[i].rtt >= least
    ensures BoundedFrom(w, t0, least, AckRun(w, acks), acks[|acks| - 1].now)
  {
    hide AckStep, CwndDelta, WindowOk, AckRun, Allowance;
    var a, rest := acks[0], acks[1..];
    var y := AckStep(w, a.up, a.now, a.rtt);
    FirstAckApart(w, acks);
    AckKeepsWindow(w, a.up, a.now, a.rtt);
    FirstStep(w, t0, least, a);
    AvoidanceGrowth(y, rest, least);
    hide Timely;
    var z := AckRun(w, acks);
    GrowthAddsUp(MaxReal(w.cwnd, MIN_CWND), y.cwnd, z.cwnd, a.now - t0, acks[|acks| - 1].now - a.now, least);
  }

  lemma GrowthAddsUp(top: real, y: real, z: real, a: real, b: real, least: Rtt)
    requires top >= MIN_CWND && a >= 0.0
    requires y <= top + Allowance(a, least) && z <= MaxReal(y, MIN_CWND) + Allowance(b, least)
    ensures z <= top + Allowance(a + b, least)
  {
    SumOfQuotients(a, b, least);
    Quotient(64.0 * a, least);
  }

  lemma FirstAckApart(w: Window, acks: seq<Ack>)
    requires acks != []
    ensures AckRun(w, acks) == AckRun(AckStep(w, acks[0].up, acks[0].now, acks[0].rtt), acks[1..])
  {
    hide AckStep;
    var a := acks[0];
    assert [a][..0] == [] && AckRun(w, [a]) == AckStep(AckRun(w, []), a.up, a.now, a.rtt);
    assert [a] + acks[1..] == acks;
    RunSplits(w, [a], acks[1..]);
  }

  lemma FirstStep(w: Window, t0: Time, least: Rtt, a: Ack)
    requires WindowOk(w) && !w.slowStart && w.change <= t0 <= a.now && a.rtt >= least
    requires w.cwnd + CwndDelta(w, t0, least) <= MaxReal(w.cwnd, MIN_CWND)
    ensures var y := AckStep(w, a.up, a.now, a.rtt);
            y.change == a.now && y.cwnd <= MaxReal(w.cwnd, MIN_CWND) + Allowance(a.now - t0, least)
  {
    DeltaIsNotNegative(w, a.now, a.rtt);
    DeltaSplits(w, t0, a.now, a.rtt, least);
    Quotient(64.0 * (a.now - t0), least);
    hide CwndDelta;
  }

  /** What an ACK at `now` adds is at most what one at `t0` would have, and 64 per least RTT since. */
  lemma DeltaSplits(w: Window, t0: Time, now: Time, rtt: Rtt, least: Rtt)
    requires WindowOk(w) && w.change <= t0 <= now && rtt >= least
    ensures CwndDelta(w, now, rtt) <= CwndDelta(w, t0, least) + 64.0 * (now - t0) / least
  {
    SplitWork(w.v * DELTA_RECIPROCAL, t0 - w.change, now - t0, rtt, least);
  }

  lemma SplitWork(rate: real, early: real, late: real, rtt: Rtt, least: Rtt)
    requires 0.0 <= rate <= 64.0 && early >= 0.0 && late >= 0.0 && rtt >= least
    ensures rate * (early + late) / rtt <= rate * early / least + 64.0 * late / least
  {
    var a, b, most := rate * early, rate * late, 64.0 * late;
    ScaledUp(rate, early, late);
    SmallerDivisor(a + b, rtt, least);
    LargerDividend(a + b, a + most, least);
    SplitQuotient(a, most, least);
  }

  lemma ScaledUp(rate: real, early: real, late: real)
    requires 0.0 <= rate <= 64.0 && early >= 0.0 && late >= 0.0
    ensures rate * (early + late) == rate * early + rate * late
    ensures 0.0 <= rate * early && 0.0 <= rate * late <= 64.0 * late
  {
    assert (64.0 - rate) * late >= 0.0;
  }

  lemma SplitQuotient(a: real, b: real, c: real)
    requires c > 0.0
    ensures (a + b) / c == a / c + b / c
  {
  }

  // ---------------------------------------------------------------- sends within the last window

  ghost predicate Sorted(times: seq<Time>, last: Time) {
    && (forall i :: 0 <= i < |times| ==> times[i] <= last)
    && (forall i, j :: 0 <= i < j < |times| ==> times[i] <= times[j])
  }

  /** The first `n` are the ones before the limit. */
  ghost predicate SplitsAt(times: seq<Time>, n: nat, limit: Time) {
    n <= |times| && forall i :: 0 <= i < |times| ==> (times[i] < limit <==> i < n)
  }

  lemma OneMoreSend(times: seq<Time>, last: Time, now: Time)
    requires Sorted(times, last) && last <= now
    ensures Sorted(times + [now], now)
  {
  }

  lemma OlderThanLimit(times: seq<Time>, last: Time, n: nat, limit: Time)
    requires Sorted(times, last) && n < |times| && limit <= times[n]
    requires forall i :: 0 <= i < n ==> times[i] < limit
    ensures SplitsAt(times, n, limit)
  {
  }

  /** `UsedWindow`: the sends that are still counted. */
  class UsedWindow {
    var record: seq<Time>

    /** Every send so far, how many of them are forgotten, and the start of the latest window reached. */
    ghost var sends: seq<Time>
    ghost var gone: nat
    ghost var horizon: Time
    ghost var clock: Time

    /** The record holds exactly the sends that no window so far has left behind. */
    ghost predicate Valid()
      reads this
    {
      Sorted(sends, clock) && SplitsAt(sends, gone, horizon) && record == sends[gone..] && horizon <= clock
    }

    constructor (now: Time)
      ensures Valid() && record == sends == [] && clock == horizon == now
    {
      record, sends, gone, horizon, clock := [], [], 0, now, now;
    }

    /** `on_data_send`: records a send and forgets those older than the window. */
    method OnDataSend(win: Duration, now: Time) returns (n: nat)
      requires Valid() && now >= clock
      modifies this
      ensures Valid() && n == |record| && clock == now
      ensures sends == old(sends) + [now] && horizon == MaxReal(old(horizon), now - win)
    {
      OneMoreSend(sends, clock, now);
      hide Sorted;
      record := record + [now];
      sends := sends + [now];
      clock := now;
      ghost var all, before, limit := sends, horizon, MaxReal(horizon, now - win);
      while record[0] < now - win
        invariant gone < |all| && record == all[gone..] && sends == all && clock == now && horizon == before
        invariant forall i :: 0 <= i < gone ==> all[i] < limit
        invariant before <= all[gone]
        decreases |record|
      {
        record := record[1..];
        gone := gone + 1;
      }
      assert record[0] == all[gone];
      OlderThanLimit(all, clock, gone, limit);
      horizon := limit;
      n := |record|;
    }
  }

  // ---------------------------------------------------------------- the controller

  ghost predicate Positive(s: Slots) {
    s.first.value > 0.0 && s.second.value > 0.0 && s.third.value > 0.0
  }

  lemma StepStaysPositive(s: Slots, win: Duration, x: Sample)
    requires Positive(s) && x.value > 0.0
    ensures Positive(MinStep(s, win, x))
  {
  }

  /** The window of the standing RTT: half an RTT, at least ten milliseconds. */
  function StandingWindow(rtt: Rtt): Duration {
    if rtt / 2.0 < MIN_STANDING_WINDOW then MIN_STANDING_WINDOW else rtt / 2.0
  }

  /** The current rate is at most the target rate; with no queueing delay the target is unbounded. */
  predicate BelowTarget(cwnd: real, standing: real, queueing: Duration)
    requires standing > 0.0
  {
    queueing == 0.0 || cwnd / standing <= DELTA_RECIPROCAL / queueing
  }

  /** The two RTT filters and the window. */
  datatype Controller = Controller(least: Slots, standing: Slots, window: Window)

  /** The original panics: the standing RTT is below the minimum RTT. */
  predicate Undercut(c: Controller) {
    c.standing.first.value < c.least.first.value
  }

  ghost predicate Measurable(c: Controller) {
    Positive(c.least) && Positive(c.standing)
  }

  function Fresh(top: Sample, now: Time): Controller {
    Controller(ResetTo(top), ResetTo(top), Initial(now))
  }

  /** A send shows its RTT to the filter of the minimum only. */
  function WithSend(c: Controller, rtt: Rtt, now: Time): Controller {
    c.(least := MinStep(c.least, MIN_RTT_WINDOW, Sample(now, rtt)))
  }

  /** An ACK shows its RTT to both filters. */
  function Measured(c: Controller, rtt: Rtt, now: Time): Controller {
    WithSend(c, rtt, now).(standing := MinStep(c.standing, StandingWindow(rtt), Sample(now, rtt)))
  }

  /** Whether the ACK finds the sending rate below its target. */
  predicate GoesUp(c: Controller, rtt: Rtt, now: Time)
    requires var m := Measured(c, rtt, now); !Undercut(m) && m.standing.first.value > 0.0
  {
    var m := Measured(c, rtt, now);
    BelowTarget(c.window.cwnd, m.standing.first.value, m.standing.first.value - m.least.first.value)
  }

  /** The controller after an ACK, unless the original panics. */
  function WithAck(c: Controller, rtt: Rtt, now: Time): (r: Option<Controller>)
    requires Measurable(c)
    ensures r.None? <==> Undercut(Measured(c, rtt, now))
    ensures r.Some? ==> Measurable(r.value)
  {
    StepStaysPositive(c.least, MIN_RTT_WINDOW, Sample(now, rtt));
    StepStaysPositive(c.standing, StandingWindow(rtt), Sample(now, rtt));
    var m := Measured(c, rtt, now);
    if Undercut(m) then None
    else Some(m.(window := AckStep(c.window, GoesUp(c, rtt, now), now, rtt)))
  }

  /** The filters are where these readings since their reset, at `top`, lead. */
  ghost predicate FiltersTrack(c: Controller, top: Sample, readings: seq<Reading>, clock: Time) {
    && top.value == MAX_DURATION && Measurable(c)
    && InOrder(readings) && (readings != [] ==> readings[|readings| - 1].time <= clock)
    && c.least == MinRun(top, MinimumCalls(readings))
    && c.standing == MinRun(top, StandingCalls(readings))
  }

  /** The window is where these ACKs since the moment `born` lead. */
  ghost predicate WindowTracks(w: Window, born: Time, acks: seq<Ack>, clock: Time) {
    && WindowOk(w) && w == AckRun(Initial(born), acks) && Timely(acks, born)
    && born <= clock && (acks != [] ==> acks[|acks| - 1].now <= clock)
  }

  lemma FreshTracks(top: Sample, now: Time, clock: Time)
    requires top.value == MAX_DURATION && now <= clock
    ensures FiltersTrack(Fresh(top, now), top, [], clock) && WindowTracks(Initial(now), now, [], clock)
  {
    NoReadings(top);
  }

  lemma ResetTracks(top: Sample, now: Time, w: Window, clock: Time)
    requires top.value == MAX_DURATION
    ensures FiltersTrack(Fresh(top, now).(window := w), top, [], clock)
  {
    NoReadings(top);
  }

  lemma FiltersTrackSend(c: Controller, top: Sample, readings: seq<Reading>, clock: Time, rtt: Rtt, now: Time)
    requires FiltersTrack(c, top, readings, clock) && clock <= now
    ensures FiltersTrack(WithSend(c, rtt, now), top, readings + [Reading(rtt, now, false)], now)
  {
    hide MinStep, MinRun, MinimumCalls, StandingCalls;
    StepStaysPositive(c.least, MIN_RTT_WINDOW, Sample(now, rtt));
    OneMoreReading(top, readings, Reading(rtt, now, false));
  }

  lemma FiltersTrackAck(c: Controller, top: Sample, readings: seq<Reading>, clock: Time, rtt: Rtt, now: Time)
    requires FiltersTrack(c, top, readings, clock) && clock <= now
    ensures FiltersTrack(Measured(c, rtt, now), top, readings + [Reading(rtt, now, true)], now)
  {
    hide MinStep, MinRun, MinimumCalls, StandingCalls, StandingWindow;
    StepStaysPositive(c.least, MIN_RTT_WINDOW, Sample(now, rtt));
    StepStaysPositive(c.standing, StandingWindow(rtt), Sample(now, rtt));
    OneMoreReading(top, readings, Reading(rtt, now, true));
  }

  lemma TracksPositive(c: Controller, top: Sample, readings: seq<Reading>, clock: Time)
    requires FiltersTrack(c, top, readings, clock)
    ensures Measurable(c)
  {
  }

  lemma WindowIsApart(c: Controller, w: Window, top: Sample, readings: seq<Reading>, clock: Time)
    requires FiltersTrack(c, top, readings, clock)
    ensures FiltersTrack(c.(window := w), top, readings, clock)
  {
  }

  lemma TimePassesForWindow(w: Window, born: Time, acks: seq<Ack>, clock: Time, now: Time)
    requires WindowTracks(w, born, acks, clock) && clock <= now
    ensures WindowTracks(w, born, acks, now)
  {
  }

  lemma WindowTracksAck(w: Window, born: Time, acks: seq<Ack>, clock: Time, a: Ack)
    requires WindowTracks(w, born, acks, clock) && clock <= a.now
    ensures WindowTracks(AckStep(w, a.up, a.now, a.rtt), born, acks + [a], a.now)
  {
    hide WindowOk, AckStep;
    AckKeepsWindow(w, a.up, a.now, a.rtt);
    assert (acks + [a])[..|acks|] == acks;
  }

  class Copa {
    var rttMin: Minmax
    var rttStanding: Minmax
    var cwnd: real
    var cwndChange: Time
    var v: real
    var direction: Direction
    var directionChange: Time
    var cwndAtChange: real
    var slowStart: bool
    const used: UsedWindow

    /** What the filters have been shown since they were last reset, at `top`. */
    ghost var top: Sample
    ghost var readings: seq<Reading>

    /** All ACKs so far, and the first and the latest moment. */
    ghost var acks: seq<Ack>
    ghost const born: Time
    ghost var clock: Time

    /** The filters are where their readings lead, and the window is where the ACKs lead. */
    ghost predicate Valid()
      reads this, rttMin.estimate, rttStanding.estimate, used
    {
      && rttMin.Valid() && rttStanding.Valid() && rttMin.estimate != rttStanding.estimate
      && FiltersTrack(Contents(), top, readings, clock) && WindowTracks(State(), born, acks, clock)
      && used.Valid() && used.clock <= clock
    }

    ghost function State(): Window
      reads this
    {
      Window(cwnd, cwndChange, v, direction, directionChange, cwndAtChange, slowStart)
    }

    ghost function Contents(): Controller
      reads this, rttMin.estimate, rttStanding.estimate
      requires rttMin.Valid() && rttStanding.Valid()
    {
      Controller(rttMin.Estimates(), rttStanding.Estimates(), State())
    }

    constructor (now: Time)
      ensures Valid() && Contents() == Fresh(Sample(now, MAX_DURATION), now)
      ensures readings == [] && acks == [] && born == clock == now && used.sends == []
    {
      hide FiltersTrack, WindowTracks, UsedWindow.Valid;
      FreshTracks(Sample(now, MAX_DURATION), now, now);
      rttMin := new Minmax(now, MAX_DURATION);
      rttStanding := new Minmax(now, MAX_DURATION);
      cwnd, cwndChange, v, direction := 10.0, now, 1.0, Up;
      directionChange, cwndAtChange, slowStart := now, 10.0, true;
      used := new UsedWindow(now);
      top, readings, acks, born, clock := Sample(now, MAX_DURATION), [], [], now, now;
    }

    /** `on_ack_send`; not `ok` when the original panics, on a standing RTT below the minimum RTT. */
    method OnAckSend(rtt: Rtt, now: Time) returns (ok: bool)
      requires Valid() && now >= clock
      modifies this, rttMin.estimate, rttStanding.estimate
      ensures rttMin == old(rttMin) && rttStanding == old(rttStanding) && top == old(top)
      ensures ok <==> !Undercut(Measured(old(Contents()), rtt, now))
      ensures ok ==> Valid() && clock == now && Some(Contents()) == WithAck(old(Contents()), rtt, now)
      ensures readings == old(readings) + [Reading(rtt, now, true)]
      ensures ok ==> acks == old(acks) + [Ack(GoesUp(old(Contents()), rtt, now), now, rtt)]
    {
      hide MinStep, FiltersTrack, WindowTracks, UsedWindow.Valid, StandingWindow;
      ghost var before := Contents();
      FiltersTrackAck(before, top, readings, clock, rtt, now);
      TracksPositive(Measured(before, rtt, now), top, readings + [Reading(rtt, now, true)], now);
      var least := rttMin.RunningMin(MIN_RTT_WINDOW, now, rtt);
      var standing := rttStanding.RunningMin(StandingWindow(rtt), now, rtt);
      readings := readings + [Reading(rtt, now, true)];
      if standing < least {
        return false;
      }
      var up := BelowTarget(cwnd, standing, standing - least);
      WindowTracksAck(State(), born, acks, clock, Ack(up, now, rtt));
      UpdateWindow(up, now, rtt);
      acks := acks + [Ack(up, now, rtt)];
      clock := now;
      assert Contents() == Measured(before, rtt, now).(window := State());
      WindowIsApart(Measured(before, rtt, now), State(), top, readings, now);
      ok := true;
    }

    /** The second half of `on_ack_send`: the window and its velocity. */
    method UpdateWindow(up: bool, now: Time, rtt: Rtt)
      modifies `cwnd, `cwndChange, `slowStart, `v, `direction, `directionChange, `cwndAtChange
      ensures State() == AckStep(old(State()), up, now, rtt)
    {
      hide SlowStart, Avoid, Turn;
      if slowStart {
        CwndUpdateSlowStart(up, now, rtt);
      } else {
        CwndUpdate(up, now, rtt);
      }
      UpdateVelocity(now, rtt);
    }

    method CwndUpdateSlowStart(up: bool, now: Time, rtt: Rtt)
      modifies `cwnd, `cwndChange, `slowStart
      ensures State() == SlowStart(old(State()), up, now, rtt)
    {
      if up {
        var share := Since(now, cwndChange) / rtt;
        cwnd := cwnd * (1.0 + (if share < 1.0 then share else 1.0));
        cwndChange := now;
      } else {
        cwnd := cwnd / 2.0;
        slowStart := false;
      }
    }

    method CwndUpdate(up: bool, now: Time, rtt: Rtt)
      modifies `cwnd, `cwndChange
      ensures State() == Avoid(old(State()), up, now, rtt)
    {
      hide Paced;
      var delta := Paced(v, Since(now, cwndChange), rtt);
      cwndChange := now;
      if up {
        cwnd := cwnd + delta;
      } else {
        cwnd := cwnd - delta;
        cwnd := MaxReal(cwnd, MIN_CWND);
      }
    }

    method UpdateVelocity(now: Time, rtt: Rtt)
      modifies `v, `direction, `directionChange, `cwndAtChange
      ensures State() == Turn(old(State()), now, rtt)
    {
      if Since(now, directionChange) > rtt {
        var last := direction;
        direction := if cwnd >= cwndAtChange then Up else Down;
        if direction == last {
          v := if v * 2.0 < V_MAX then v * 2.0 else V_MAX;
        } else {
          v := 1.0;
        }
        cwndAtChange := cwnd;
        directionChange := now;
      }
    }

    /** `on_data_send`: too fast when the sends still counted exceed the window's share of an RTT. */
    method OnDataSend(now: Time, rtt: Rtt) returns (fast: bool)
      requires Valid() && now >= clock
      modifies `readings, `clock, used, rttMin.estimate
      ensures Valid() && clock == now && Contents() == WithSend(old(Contents()), rtt, now)
      ensures readings == old(readings) + [Reading(rtt, now, false)]
      ensures used.sends == old(used.sends) + [now] && used.horizon == MaxReal(old(used.horizon), now - rtt)
      ensures fast <==> ExceedsShare(|used.record| as real, rtt, cwnd, rttMin.Estimates().first.value)
    {
      hide MinStep, FiltersTrack, WindowTracks, ExceedsShare, UsedWindow.Valid;
      FiltersTrackSend(Contents(), top, readings, clock, rtt, now);
      TracksPositive(WithSend(Contents(), rtt, now), top, readings + [Reading(rtt, now, false)], now);
      TimePassesForWindow(State(), born, acks, clock, now);
      var n := used.OnDataSend(rtt, now);
      var least := rttMin.RunningMin(MIN_RTT_WINDOW, now, rtt);
      readings := readings + [Reading(rtt, now, false)];
      clock := now;
      CompareRates(n as real, rtt, cwnd, least);
      fast := n as real / rtt > cwnd / least;
    }

    /** `reset_rtt_filters`. */
    method ResetRttFilters(now: Time)
      requires Valid()
      modifies `rttMin, `rttStanding, `top, `readings
      ensures Valid() && fresh(rttMin) && fresh(rttStanding) && readings == []
      ensures Contents() == Fresh(Sample(now, MAX_DURATION), now).(window := old(State()))
    {
      hide FiltersTrack, WindowTracks, UsedWindow.Valid;
      ResetTracks(Sample(now, MAX_DURATION), now, State(), clock);
      rttMin := new Minmax(now, MAX_DURATION);
      rttStanding := new Minmax(now, MAX_DURATION);
      top, readings := Sample(now, MAX_DURATION), [];
    }
  }

  lemma {:induction false} LastChangeIsPast(w: Window, acks: seq<Ack>, t: Time)
    requires w.change <= t && forall i :: 0 <= i < |acks| ==> acks[i].now <= t
    ensures AckRun(w, acks).change <= t
    decreases |acks|
  {
    hide CwndDelta;
    if acks != [] {
      LastChangeIsPast(w, acks[..|acks| - 1], t);
    }
  }

  lemma GrowthAfter(w: Window, acks: seq<Ack>, n: nat, least: Rtt)
    requires WindowOk(w) && Timely(acks, w.change) && n <= |acks| && !AckRun(w, acks[..n]).slowStart
    requires forall i :: n <= i < |acks| ==> acks[i].rtt >= least
    ensures var x, z := AckRun(w, acks[..n]), AckRun(w, acks);
            && !z.slowStart && x.change <= z.change
            && z.cwnd <= MaxReal(x.cwnd, MIN_CWND) + Allowance(z.change - x.change, least)
  {
    hide AckRun, WindowOk, Allowance, Timely;
    LaterAcksAreTimely(w, acks, n);
    RunKeepsWindow(w, acks[..n]);
    AvoidanceGrowth(AckRun(w, acks[..n]), acks[n..], least);
    RunSplits(w, acks[..n], acks[n..]);
    assert acks[..n] + acks[n..] == acks;
  }

  lemma LaterAcksAreTimely(w: Window, acks: seq<Ack>, n: nat)
    requires Timely(acks, w.change) && n <= |acks|
    ensures Timely(acks[n..], AckRun(w, acks[..n]).change)
  {
    hide AckRun;
    forall i | n <= i < |acks|
      ensures AckRun(w, acks[..n]).change <= acks[i].now
    {
      LastChangeIsPast(w, acks[..n], acks[i].now);
    }
  }

  /**
   In every state of the controller, counted from any earlier moment of congestion avoidance, as
   it was after the first `n` ACKs: slow start is over, and the window has grown within bounds.
   */
  lemma ControllerGrowth(c: Copa, n: nat, least: Rtt)
    requires c.Valid() && n <= |c.acks| && !AckRun(Initial(c.born), c.acks[..n]).slowStart
    requires forall i :: n <= i < |c.acks| ==> c.acks[i].rtt >= least
    ensures var x := AckRun(Initial(c.born), c.acks[..n]);
            && !c.slowStart && x.change <= c.cwndChange
            && c.cwnd <= MaxReal(x.cwnd, MIN_CWND) + Allowance(c.cwndChange - x.change, least)
  {
    GrowthAfter(Initial(c.born), c.acks, n, least);
    hide AckRun, Allowance;
    assert c.State().cwnd == c.cwnd && c.State().change == c.cwndChange && c.State().slowStart == c.slowStart;
  }

  /** `n` sends per RTT are more than `cwnd` sends per least RTT. */
  predicate ExceedsShare(n: real, rtt: real, cwnd: real, least: real) {
    n * least > cwnd * rtt
  }

  /** An ACK goes up exactly if the window, over the standing RTT, is worth no more than two packets of delay. */
  lemma GoesUpExactly(c: Controller, rtt: Rtt, now: Time)
    requires var m := Measured(c, rtt, now); !Undercut(m) && m.standing.first.value > 0.0
    ensures var m := Measured(c, rtt, now);
            GoesUp(c, rtt, now) <==>
            c.window.cwnd * (m.standing.first.value - m.least.first.value) <= 2.0 * m.standing.first.value
  {
    hide MinStep;
    var m := Measured(c, rtt, now);
    var standing, queueing := m.standing.first.value, m.standing.first.value - m.least.first.value;
    if queueing > 0.0 {
      CompareRates(c.window.cwnd, standing, 2.0, queueing);
    }
  }

  lemma CompareRates(n: real, rtt: real, cwnd: real, least: real)
    requires rtt > 0.0 && least > 0.0
    ensures n / rtt > cwnd / least <==> ExceedsShare(n, rtt, cwnd, least)
  {
    var p, q := n / rtt, cwnd / least;
    assert p * rtt == n && q * least == cwnd;
    assert n * least == p * (rtt * least) && cwnd * rtt == q * (rtt * least);
    SameSign(p - q, rtt * least);
    assert (p - q) * (rtt * least) == n * least - cwnd * rtt;
  }

  lemma SameSign(d: real, c: real)
    requires c > 0.0
    ensures d > 0.0 <==> d * c > 0.0
  {
  }

  // ---------------------------------------------------------------- the two RTT filters

  /** An RTT shown to the filters, by an ACK or by a send. */
  datatype Reading = Reading(rtt: Rtt, time: Time, acked: bool)
  {
    function Value(): Sample { Sample(time, rtt) }
  }

  ghost predicate InOrder(rs: seq<Reading>) {
    forall i, j :: 0 <= i < j < |rs| ==> rs[i].time <= rs[j].time
  }

  /** The calls these readings make on the filter of the minimum. */
  function MinimumCalls(rs: seq<Reading>): (calls: seq<Call>)
    ensures |calls| == |rs| && forall i :: 0 <= i < |rs| ==> calls[i] == Call(MIN_RTT_WINDOW, rs[i].Value())
  {
    if rs == [] then []
    else MinimumCalls(rs[..|rs| - 1]) + [Call(MIN_RTT_WINDOW, rs[|rs| - 1].Value())]
  }

  /** The calls they make on the filter of the standing RTT. */
  function StandingCalls(rs: seq<Reading>): seq<Call> {
    if rs == [] then []
    else
      var r := rs[|rs| - 1];
      StandingCalls(rs[..|rs| - 1]) + (if r.acked then [Call(StandingWindow(r.rtt), r.Value())] else [])
  }

  lemma MinRunExtends(top: Sample, calls: seq<Call>, c: Call)
    ensures MinRun(top, calls + [c]) == MinStep(MinRun(top, calls), c.win, c.sample)
  {
    assert (calls + [c])[..|calls|] == calls;
  }

  lemma NoReadings(top: Sample)
    ensures MinRun(top, MinimumCalls([])) == MinRun(top, StandingCalls([])) == ResetTo(top)
  {
  }

  lemma OneMoreReading(top: Sample, rs: seq<Reading>, r: Reading)
    ensures MinRun(top, MinimumCalls(rs + [r])) == MinStep(MinRun(top, MinimumCalls(rs)), MIN_RTT_WINDOW, r.Value())
    ensures MinRun(top, StandingCalls(rs + [r])) ==
            if r.acked then MinStep(MinRun(top, StandingCalls(rs)), StandingWindow(r.rtt), r.Value())
            else MinRun(top, StandingCalls(rs))
  {
    hide MinStep, StandingWindow;
    assert (rs + [r])[..|rs|] == rs;
    MinRunExtends(top, MinimumCalls(rs), Call(MIN_RTT_WINDOW, r.Value()));
    if r.acked {
      MinRunExtends(top, StandingCalls(rs), Call(StandingWindow(r.rtt), r.Value()));
    } else {
      assert StandingCalls(rs) + [] == StandingCalls(rs);
    }
  }

  /** Where the ACKs are among the readings. */
  ghost function AckPositions(rs: seq<Reading>): seq<nat> {
    if rs == [] then []
    else AckPositions(rs[..|rs| - 1]) + (if rs[|rs| - 1].acked then [|rs| - 1] else [])
  }

  /** The positions `at`, in order, are those of the ACKs, and these are their samples. */
  ghost predicate PointsAtAcks(at: seq<nat>, rs: seq<Reading>, calls: seq<Call>) {
    && |calls| == |at|
    && (forall k :: 0 <= k < |at| ==> at[k] < |rs| && rs[at[k]].acked && calls[k].sample == rs[at[k]].Value())
    && (forall k, l :: 0 <= k < l < |at| ==> at[k] < at[l])
    && (forall i :: 0 <= i < |rs| && rs[i].acked ==> i in at)
  }

  lemma {:induction false} AcksAreTheStandingCalls(rs: seq<Reading>)
    ensures PointsAtAcks(AckPositions(rs), rs, StandingCalls(rs))
    decreases |rs|
  {
    hide PointsAtAcks, StandingWindow;
    if rs == [] {
      assert PointsAtAcks([], [], []) by {
        NothingToPointAt();
      }
    } else {
      var front := rs[..|rs| - 1];
      AcksAreTheStandingCalls(front);
      var at, calls, r := AckPositions(front), StandingCalls(front), rs[|rs| - 1];
      assert front + [r] == rs;
      OneMorePosition(at, front, calls, r, Call(StandingWindow(r.rtt), r.Value()));
    }
  }

  lemma NothingToPointAt()
    ensures PointsAtAcks([], [], [])
  {
  }

  lemma OneMorePosition(at: seq<nat>, rs: seq<Reading>, calls: seq<Call>, r: Reading, c: Call)
    requires PointsAtAcks(at, rs, calls) && c.sample == r.Value()
    ensures PointsAtAcks(at + (if r.acked then [|rs|] else []), rs + [r], calls + (if r.acked then [c] else []))
  {
    var all := at + (if r.acked then [|rs|] else []);
    assert r.acked ==> all[|at|] == |rs|;
    assert forall k :: 0 <= k < |at| ==> all[k] == at[k];
    assert forall i :: i in at ==> i in all;
  }

  /** The first slot of the minimum filter: a reading no larger than any later one. */
  lemma MinimumReading(top: Sample, rs: seq<Reading>) returns (i: nat)
    requires rs != [] && InOrder(rs) && top.value == MAX_DURATION
    ensures i < |rs| && MinRun(top, MinimumCalls(rs)).first == rs[i].Value()
    ensures forall x :: i <= x < |rs| ==> rs[i].rtt <= rs[x].rtt
  {
    var calls := MinimumCalls(rs);
    var h := Samples(calls);
    assert forall x :: 0 <= x < |rs| ==> h[x] == calls[x].sample == rs[x].Value();
    assert TimeOrdered(h);
    var a, _, _ := MinRunTracks(top, calls);
    i := a;
    assert forall x :: i <= x < |rs| ==> h[i].value <= h[x].value;
  }

  /** The first slot of the standing filter: an ACK's reading no larger than any later ACK's. */
  lemma StandingReading(top: Sample, rs: seq<Reading>) returns (j: nat)
    requires InOrder(rs) && top.value == MAX_DURATION && exists i :: 0 <= i < |rs| && rs[i].acked
    ensures j < |rs| && rs[j].acked && MinRun(top, StandingCalls(rs)).first == rs[j].Value()
    ensures forall x :: j <= x < |rs| && rs[x].acked ==> rs[j].rtt <= rs[x].rtt
  {
    AcksAreTheStandingCalls(rs);
    var calls, at := StandingCalls(rs), AckPositions(rs);
    hide StandingCalls, AckPositions;
    var h := Samples(calls);
    assert forall k :: 0 <= k < |at| ==> h[k] == calls[k].sample == rs[at[k]].Value();
    assert TimeOrdered(h);
    var a, _, _ := MinRunTracks(top, calls);
    j := at[a];
    forall x | j <= x < |rs| && rs[x].acked
      ensures rs[j].rtt <= rs[x].rtt
    {
      var k :| 0 <= k < |at| && at[k] == x;
      assert a <= k;
      assert h[a].value <= h[k].value;
    }
  }

  /**
   Exactly when the standing RTT is not below the minimum RTT: the minimum was read no later
   than the standing RTT, or they are equal, or the minimum was read by a send, which the
   standing filter is not shown, and is smaller. `i` and `j` are the readings in question.
   */
  lemma UndercutExactly(top: Sample, rs: seq<Reading>) returns (i: nat, j: nat)
    requires InOrder(rs) && top.value == MAX_DURATION && exists x :: 0 <= x < |rs| && rs[x].acked
    ensures i < |rs| && j < |rs| && rs[j].acked
    ensures MinRun(top, MinimumCalls(rs)).first == rs[i].Value()
    ensures MinRun(top, StandingCalls(rs)).first == rs[j].Value()
    ensures rs[i].rtt <= rs[j].rtt <==> i <= j || rs[i].rtt == rs[j].rtt || (!rs[i].acked && rs[i].rtt < rs[j].rtt)
    ensures SendsRepeat(rs) ==> (rs[i].rtt <= rs[j].rtt <==> i <= j || rs[i].rtt == rs[j].rtt)
  {
    i := MinimumReading(top, rs);
    j := StandingReading(top, rs);
    if SendsRepeat(rs) && j < i {
      var a := LatestAck(rs, i, j);
      assert rs[j].rtt <= rs[a].rtt;
    }
  }

  /** Every send shows the RTT the reading before it showed: the connection's RTT has not changed since. */
  ghost predicate SendsRepeat(rs: seq<Reading>) {
    forall i :: 0 < i < |rs| && !rs[i].acked ==> rs[i].rtt == rs[i - 1].rtt
  }

  lemma {:induction false} LatestAck(rs: seq<Reading>, i: nat, j: nat) returns (a: nat)
    requires j <= i < |rs| && rs[j].acked && SendsRepeat(rs)
    ensures j <= a <= i && rs[a].acked && rs[a].rtt == rs[i].rtt
    decreases i
  {
    if rs[i].acked {
      a := i;
    } else {
      a := LatestAck(rs, i - 1, j);
    }
  }

  /** On a clock that advances with every reading, the times in the filters tell. */
  lemma UndercutByTimes(top: Sample, rs: seq<Reading>)
    requires forall i, j :: 0 <= i < j < |rs| ==> rs[i].time < rs[j].time
    requires top.value == MAX_DURATION && SendsRepeat(rs) && exists x :: 0 <= x < |rs| && rs[x].acked
    ensures var least, standing := MinRun(top, MinimumCalls(rs)).first, MinRun(top, StandingCalls(rs)).first;
            least.value <= standing.value <==> least.time <= standing.time || least.value == standing.value
  {
    var i, j := UndercutExactly(top, rs);
  }

  // ---------------------------------------------------------------- runs through the filters

  /** The controller after ACKs with these RTTs at these times, unless the original panics. */
  ghost function Played(c: Controller, acks: seq<Sample>): (r: Option<Controller>)
    requires Measurable(c) && forall k :: 0 <= k < |acks| ==> 0.0 < acks[k].value <= MAX_DURATION
    ensures r.Some? ==> Measurable(r.value)
  {
    if acks == [] then Some(c)
    else
      var before := Played(c, acks[..|acks| - 1]);
      if before.None? then None else WithAck(before.value, acks[|acks| - 1].value, acks[|acks| - 1].time)
  }

  const MS: real := 1_000_000.0

  lemma PlayOne(c: Controller, acks: seq<Sample>, n: nat)
    requires Measurable(c) && forall k :: 0 <= k < |acks| ==> 0.0 < acks[k].value <= MAX_DURATION
    requires n < |acks| && Played(c, acks[..n]).Some?
    ensures Played(c, acks[..n + 1]) == WithAck(Played(c, acks[..n]).value, acks[n].value, acks[n].time)
  {
    assert acks[..n + 1][..n] == acks[..n];
  }

  /** RTTs of half a second: the minimum filter drops the second reading for the fourth. */
  ghost function Creeping(): (acks: seq<Sample>)
    ensures |acks| == 5 && forall k :: 0 <= k < |acks| ==> 0.0 < acks[k].value <= MAX_DURATION
  {
    [Sample(0.0, 460.0 * MS), Sample(3_000.0 * MS, 465.0 * MS), Sample(12_800.0 * MS, 470.0 * MS),
     Sample(12_920.0 * MS, 475.0 * MS), Sample(13_020.0 * MS, 480.0 * MS)]
  }

  ghost function Started(): (c: Controller)
    ensures Measurable(c)
  {
    Fresh(Sample(0.0, MAX_DURATION), 0.0)
  }

  /**
   The larger window does not always give the smaller minimum: a fresh controller handles four
   such ACKs, and panics at the fifth.
   */
  lemma StandingCanUndercutMinimum()
    ensures Played(Started(), Creeping()[..4]).Some? && Played(Started(), Creeping()).None?
  {
    hide AckStep, BelowTarget, MinStep, Played;
    var acks := Creeping();
    var a, b, c, d, e := acks[0], acks[1], acks[2], acks[3], acks[4];
    CreepingSlots();
    assert Played(Started(), acks[..0]) == Some(Started()) by {
      PlayNone(Started());
    }
    PlayOne(Started(), acks, 0);
    PlayOne(Started(), acks, 1);
    PlayOne(Started(), acks, 2);
    PlayOne(Started(), acks, 3);
    PlayOne(Started(), acks, 4);
    assert acks[..5] == acks;
  }

  lemma PlayNone(c: Controller)
    requires Measurable(c)
    ensures Played(c, []) == Some(c)
  {
  }

  /** The filters on the way there. */
  lemma CreepingSlots()
    ensures var acks := Creeping(); var a, b, c, d, e := acks[0], acks[1], acks[2], acks[3], acks[4];
            var top := ResetTo(Sample(0.0, MAX_DURATION));
            && MinStep(top, MIN_RTT_WINDOW, a) == ResetTo(a)
            && MinStep(ResetTo(a), MIN_RTT_WINDOW, b) == Slots(a, b, b)
            && MinStep(Slots(a, b, b), MIN_RTT_WINDOW, c) == Slots(b, b, c)
            && MinStep(Slots(b, b, c), MIN_RTT_WINDOW, d) == Slots(b, d, d)
            && MinStep(Slots(b, d, d), MIN_RTT_WINDOW, e) == Slots(d, d, e)
            && MinStep(top, StandingWindow(a.value), a) == ResetTo(a)
            && MinStep(ResetTo(a), StandingWindow(b.value), b) == ResetTo(b)
            && MinStep(ResetTo(b), StandingWindow(c.value), c) == ResetTo(c)
            && MinStep(ResetTo(c), StandingWindow(d.value), d) == Slots(c, d, d)
            && MinStep(Slots(c, d, d), StandingWindow(e.value), e) == Slots(c, d, e)
  {
  }

  /** RTTs of 100 and 140 milliseconds: slow start ends at the second ACK. */
  ghost function Jump(): (acks: seq<Sample>)
    ensures |acks| == 3 && forall k :: 0 <= k < |acks| ==> 0.0 < acks[k].value <= MAX_DURATION
  {
    [Sample(0.0, 100.0 * MS), Sample(400.0 * MS, 140.0 * MS), Sample(400.0 * MS, 140.0 * MS)]
  }

  /** Counted from the end of slow start, the bound on the window fails for a fresh controller. */
  lemma GrowthFromExitFails()
    ensures var acks := Jump(); var t0 := acks[1].time;
            var w, x, z := Played(Started(), acks[..1]), Played(Started(), acks[..2]), Played(Started(), acks);
            && w.Some? && x.Some? && z.Some? && w.value.window.slowStart && !x.value.window.slowStart
            && z.value.window == AckRun(x.value.window, [Ack(true, t0, acks[2].value)])
            && !BoundedFrom(x.value.window, t0, acks[2].value, z.value.window, t0)
  {
    hide AckStep, BelowTarget, MinStep, Played, AckRun;
    var acks := Jump();
    JumpSlots();
    JumpWindows();
    assert Played(Started(), acks[..0]) == Some(Started()) by {
      PlayNone(Started());
    }
    PlayOne(Started(), acks, 0);
    PlayOne(Started(), acks, 1);
    PlayOne(Started(), acks, 2);
    assert acks[..3] == acks;
    OneAck(Played(Started(), acks[..2]).value.window, Ack(true, acks[2].time, acks[2].value));
  }

  lemma OneAck(w: Window, a: Ack)
    ensures AckRun(w, [a]) == AckStep(w, a.up, a.now, a.rtt)
  {
    assert [a][..0] == [];
  }

  lemma JumpSlots()
    ensures var acks := Jump(); var a, b := acks[0], acks[1];
            var top := ResetTo(Sample(0.0, MAX_DURATION));
            && MinStep(top, MIN_RTT_WINDOW, a) == MinStep(ResetTo(a), MIN_RTT_WINDOW, b) == ResetTo(a)
            && MinStep(top, StandingWindow(a.value), a) == ResetTo(a)
            && MinStep(ResetTo(a), StandingWindow(b.value), b) == ResetTo(b)
            && MinStep(ResetTo(b), StandingWindow(b.value), b) == ResetTo(b)
  {
  }

  /** The window before and after the end of slow start, and after the next ACK. */
  lemma JumpWindows()
    ensures var acks := Jump(); var a, b := acks[0], acks[1];
            var w := Initial(0.0); var x := AckStep(w, false, b.time, b.value);
            && BelowTarget(w.cwnd, a.value, 0.0) && AckStep(w, true, a.time, a.value) == w
            && !BelowTarget(w.cwnd, b.value, b.value - a.value) && !x.slowStart
            && BelowTarget(x.cwnd, b.value, b.value - a.value)
            && !BoundedFrom(x, b.time, b.value, AckStep(x, true, b.time, b.value), b.time)
  {
    var acks := Jump();
    var x := AckStep(Initial(0.0), false, acks[1].time, acks[1].value);
    assert x.cwnd == 5.0 && x.change == 0.0 && x.v == 1.0;
    assert CwndDelta(x, 400.0 * MS, 140.0 * MS) == 40.0 / 7.0;
  }
}
