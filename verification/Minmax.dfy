/**
 Kathleen Nichols' windowed minimum (`pemi/src/minmax.rs`): three slots stand in for the
 whole history of samples.
 */
module WindowedMin {
  import opened Base

  datatype Sample = Sample(time: Time, value: real)

  /** The best estimate and two later ones to fall back on. */
  datatype Slots = Slots(first: Sample, second: Sample, third: Sample)

  function ResetTo(s: Sample): Slots {
    Slots(s, s, s)
  }

  /** `subwin_update`: expired estimates are dropped, later ones chosen as time passes. */
  function SubwinUpdate(s: Slots, win: Duration, x: Sample): Slots {
    var age := Since(x.time, s.first.time);
    if age > win then
      if Since(x.time, s.second.time) > win then Slots(s.third, x, x) else Slots(s.second, s.third, x)
    else if s.second.time == s.first.time && age > win / 4.0 then Slots(s.first, x, x)
    else if s.third.time == s.second.time && age > win / 2.0 then Slots(s.first, s.second, x)
    else s
  }

  /** The slots after `running_min`. */
  function MinStep(s: Slots, win: Duration, x: Sample): Slots {
    if x.value <= s.first.value || Since(x.time, s.third.time) > win then ResetTo(x)
    else
      SubwinUpdate(
        if x.value <= s.second.value then Slots(s.first, x, x)
        else if x.value <= s.third.value then Slots(s.first, s.second, x)
        else s, win, x)
  }

  /** The slots after `running_max`. */
  function MaxStep(s: Slots, win: Duration, x: Sample): Slots {
    if x.value >= s.first.value || Since(x.time, s.third.time) > win then ResetTo(x)
    else
      SubwinUpdate(
        if x.value >= s.second.value then Slots(s.first, x, x)
        else if x.value >= s.third.value then Slots(s.first, s.second, x)
        else s, win, x)
  }

  // ---------------------------------------------------------------- what the slots mean

  ghost predicate TimeOrdered(h: seq<Sample>) {
    forall i, j :: 0 <= i < j < |h| ==> h[i].time <= h[j].time
  }

  /** No sample from `i` on is smaller than sample `i`. */
  ghost predicate IsSuffixMin(h: seq<Sample>, i: int) {
    0 <= i < |h| && forall x :: i <= x < |h| ==> h[i].value <= h[x].value
  }

  /** The slots are samples `i <= j <= k` of the history, each no larger than any later one. */
  ghost predicate Tracks(s: Slots, h: seq<Sample>, i: int, j: int, k: int) {
    && i <= j <= k
    && IsSuffixMin(h, i) && IsSuffixMin(h, j) && IsSuffixMin(h, k)
    && s == Slots(h[i], h[j], h[k])
  }

  lemma SuffixMinExtends(h: seq<Sample>, x: Sample, i: int)
    requires (IsSuffixMin(h, i) && h[i].value <= x.value) || i == |h|
    ensures IsSuffixMin(h + [x], i)
  {
  }

  /** One call keeps the slots tracking the history, the first of them inside the window. */
  lemma MinStepTracks(s: Slots, h: seq<Sample>, i: int, j: int, k: int, win: Duration, x: Sample)
    returns (i': int, j': int, k': int)
    requires Tracks(s, h, i, j, k) && TimeOrdered(h + [x])
    ensures Tracks(MinStep(s, win, x), h + [x], i', j', k')
    ensures Since(x.time, (h + [x])[i'].time) <= win
  {
    var n, g := |h|, h + [x];
    SuffixMinExtends(h, x, n);
    if x.value <= s.first.value || Since(x.time, s.third.time) > win {
      return n, n, n;
    }
    assert h[i].value <= h[j].value <= h[k].value;
    var b, c := if x.value <= s.second.value then n else j, if x.value <= s.third.value then n else k;
    SuffixMinExtends(h, x, i);
    SuffixMinExtends(h, x, b);
    SuffixMinExtends(h, x, c);
    assert MinStep(s, win, x) == SubwinUpdate(Slots(g[i], g[b], g[c]), win, x);
    i', j', k' := SubwinTracks(g, win, i, b, c);
  }

  /** `SubwinUpdate` picks among the samples it was given, and ends inside the window. */
  lemma SubwinTracks(g: seq<Sample>, win: Duration, i: int, j: int, k: int) returns (i': int, j': int, k': int)
    requires 0 <= i <= j <= k < |g| && Tracks(Slots(g[i], g[j], g[k]), g, i, j, k) && IsSuffixMin(g, |g| - 1)
    requires Since(g[|g| - 1].time, g[k].time) <= win
    ensures Tracks(SubwinUpdate(Slots(g[i], g[j], g[k]), win, g[|g| - 1]), g, i', j', k')
    ensures Since(g[|g| - 1].time, g[i'].time) <= win
  {
    hide IsSuffixMin;
    var n, x := |g| - 1, g[|g| - 1];
    var age := Since(x.time, g[i].time);
    if age > win {
      if Since(x.time, g[j].time) > win {
        return k, n, n;
      }
      return j, k, n;
    } else if g[j].time == g[i].time && age > win / 4.0 {
      return i, n, n;
    } else if g[k].time == g[j].time && age > win / 2.0 {
      return i, j, n;
    }
    return i, j, k;
  }

  ghost predicate Ordered(s: Slots) {
    s.first.time <= s.second.time <= s.third.time && s.first.value <= s.second.value <= s.third.value
  }

  /**
   The result is no larger than the new sample and every slot that is still inside the window. While the
   first is inside, it is the smaller of that and the new sample, and the slots behind it are kept apart.
   */
  lemma LiveSlotsBound(s: Slots, win: Duration, x: Sample)
    requires Ordered(s) && s.third.time <= x.time
    ensures var r := MinStep(s, win, x);
            && r.first.value <= x.value && (x.value <= s.first.value ==> r == Slots(x, x, x))
            && (s.first.value < x.value <= s.second.value && Since(x.time, s.first.time) <= win ==>
                  r == Slots(s.first, x, x))
            && (s.second.value < x.value <= s.third.value && Since(x.time, s.first.time) <= win ==> r.third == x)
            && (Since(x.time, s.first.time) <= win ==>
                  && r.first.value == (if s.first.value < x.value then s.first.value else x.value)
                  && (s.first.value < x.value && Since(x.time, s.first.time) > win / 4.0 ==>
                        r.first.time < r.second.time)
                  && (s.first.value < x.value && Since(x.time, s.first.time) > win / 2.0 ==>
                        r.second.time < r.third.time || r.second.time == x.time))
            && (Since(x.time, s.second.time) <= win ==> r.first.value <= s.second.value)
            && (Since(x.time, s.third.time) <= win ==> r.first.value <= s.third.value)
  {
  }

  // ---------------------------------------------------------------- whole runs

  /** One call of `running_min`; every call may use another window. */
  datatype Call = Call(win: Duration, sample: Sample)

  ghost function Samples(calls: seq<Call>): (h: seq<Sample>)
    ensures |h| == |calls| && forall i :: 0 <= i < |h| ==> h[i] == calls[i].sample
  {
    seq(|calls|, i requires 0 <= i < |calls| => calls[i].sample)
  }

  /** The slots after a run of calls on a filter that starts at `top`. */
  function MinRun(top: Sample, calls: seq<Call>): Slots {
    if calls == [] then ResetTo(top)
    else
      var last := calls[|calls| - 1];
      MinStep(MinRun(top, calls[..|calls| - 1]), last.win, last.sample)
  }

  /** After any run the slots track the samples, and the best one is inside the last window. */
  lemma {:induction false} MinRunTracks(top: Sample, calls: seq<Call>) returns (i: int, j: int, k: int)
    requires calls != [] && TimeOrdered(Samples(calls)) && calls[0].sample.value <= top.value
    ensures Tracks(MinRun(top, calls), Samples(calls), i, j, k)
    ensures var last := calls[|calls| - 1];
            Since(last.sample.time, Samples(calls)[i].time) <= last.win
    decreases |calls|
  {
    var last, before := calls[|calls| - 1], calls[..|calls| - 1];
    if before == [] {
      assert MinRun(top, before) == ResetTo(top);
      i, j, k := 0, 0, 0;
    } else {
      i, j, k := MinRunTracks(top, before);
      assert Samples(calls) == Samples(before) + [last.sample];
      i, j, k := MinStepTracks(MinRun(top, before), Samples(before), i, j, k, last.win, last.sample);
    }
  }

  /**
   After any run: slots ordered by time and by value, and a result between the true minimum
   of the window and the newest sample, exact from some sample inside the window on.
   */
  lemma WindowedMinimum(top: Sample, calls: seq<Call>)
    requires calls != [] && TimeOrdered(Samples(calls)) && calls[0].sample.value <= top.value
    ensures var s := MinRun(top, calls); var last := calls[|calls| - 1];
            && s.first.time <= s.second.time <= s.third.time <= last.sample.time
            && s.first.value <= s.second.value <= s.third.value <= last.sample.value
            && exists i :: 0 <= i < |calls| && calls[i].sample == s.first
                 && Since(last.sample.time, calls[i].sample.time) <= last.win
                 && IsSuffixMin(Samples(calls), i)
  {
    var i, j, k := MinRunTracks(top, calls);
    var h := Samples(calls);
    assert h[i].value <= h[j].value <= h[k].value <= h[|h| - 1].value;
    assert h[i].time <= h[j].time <= h[k].time <= h[|h| - 1].time;
    assert calls[i].sample == h[i];
  }

  /** In any run a slot that is still inside the window is not forgotten: the result is no larger. */
  lemma LiveSlotsCount(top: Sample, calls: seq<Call>, c: Call)
    requires calls != [] && TimeOrdered(Samples(calls + [c])) && calls[0].sample.value <= top.value
    ensures var before, s := MinRun(top, calls), MinRun(top, calls + [c]);
            && Ordered(before)
            && (Since(c.sample.time, before.first.time) <= c.win ==>
                  s.first.value == if before.first.value < c.sample.value then before.first.value else c.sample.value)
            && (Since(c.sample.time, before.second.time) <= c.win ==> s.first.value <= before.second.value)
            && (Since(c.sample.time, before.third.time) <= c.win ==> s.first.value <= before.third.value)
  {
    hide MinStep;
    var all := calls + [c];
    assert all[..|calls|] == calls;
    assert Samples(all)[..|calls|] == Samples(calls) && Samples(all)[|calls|] == c.sample;
    assert TimeOrdered(Samples(calls)) by {
      assert forall i :: 0 <= i < |calls| ==> Samples(calls)[i] == Samples(all)[i];
    }
    var last := calls[|calls| - 1];
    assert last.sample == Samples(all)[|calls| - 1];
    WindowedMinimum(top, calls);
    LiveSlotsBound(MinRun(top, calls), c.win, c.sample);
  }

  // ---------------------------------------------------------------- maximum

  function Mirror(x: Sample): Sample {
    Sample(x.time, -x.value)
  }

  function MirrorSlots(s: Slots): Slots {
    Slots(Mirror(s.first), Mirror(s.second), Mirror(s.third))
  }

  /** The windowed maximum is the windowed minimum of the negated samples. */
  lemma MaxMirrorsMin(s: Slots, win: Duration, x: Sample)
    ensures MirrorSlots(MaxStep(s, win, x)) == MinStep(MirrorSlots(s), win, Mirror(x))
  {
  }

  // ---------------------------------------------------------------- the filter in place

  class Minmax {
    const estimate: array<Sample>

    ghost predicate Valid() {
      estimate.Length == 3
    }

    ghost function Estimates(): Slots
      reads estimate
      requires Valid()
    {
      Slots(estimate[0], estimate[1], estimate[2])
    }

    constructor (now: Time, value: real)
      ensures Valid() && fresh(estimate) && Estimates() == ResetTo(Sample(now, value))
    {
      estimate := new Sample[3](_ => Sample(now, value));
    }

    method Reset(time: Time, value: real) returns (best: real)
      requires Valid()
      modifies estimate
      ensures Estimates() == ResetTo(Sample(time, value)) && best == value
    {
      for i := 0 to 3
        invariant forall k :: 0 <= k < i ==> estimate[k] == Sample(time, value)
      {
        estimate[i] := Sample(time, value);
      }
      best := estimate[0].value;
    }

    /** `running_min`. */
    method RunningMin(win: Duration, time: Time, value: real) returns (best: real)
      requires Valid()
      modifies estimate
      ensures Estimates() == MinStep(old(Estimates()), win, Sample(time, value))
      ensures best == Estimates().first.value
    {
      var x := Sample(time, value);
      if value <= estimate[0].value || Since(time, estimate[2].time) > win {
        best := Reset(time, value);
        return;
      }
      if value <= estimate[1].value {
        estimate[2] := x;
        estimate[1] := x;
      } else if value <= estimate[2].value {
        estimate[2] := x;
      }
      best := UpdateSubwindows(win, time, value);
    }

    /** `running_max`. */
    method RunningMax(win: Duration, time: Time, value: real) returns (best: real)
      requires Valid()
      modifies estimate
      ensures Estimates() == MaxStep(old(Estimates()), win, Sample(time, value))
      ensures best == Estimates().first.value
    {
      var x := Sample(time, value);
      if value >= estimate[0].value || Since(time, estimate[2].time) > win {
        best := Reset(time, value);
        return;
      }
      if value >= estimate[1].value {
        estimate[2] := x;
        estimate[1] := x;
      } else if value >= estimate[2].value {
        estimate[2] := x;
      }
      best := UpdateSubwindows(win, time, value);
    }

    /** `subwin_update`. */
    method UpdateSubwindows(win: Duration, time: Time, value: real) returns (best: real)
      requires Valid()
      modifies estimate
      ensures Estimates() == SubwinUpdate(old(Estimates()), win, Sample(time, value))
      ensures best == Estimates().first.value
    {
      var x := Sample(time, value);
      var age := Since(time, estimate[0].time);
      if age > win {
        estimate[0] := estimate[1];
        estimate[1] := estimate[2];
        estimate[2] := x;
        if Since(time, estimate[0].time) > win {
          estimate[0] := estimate[1];
          estimate[1] := estimate[2];
          estimate[2] := x;
        }
      } else if estimate[1].time == estimate[0].time && age > win / 4.0 {
        estimate[2] := x;
        estimate[1] := x;
      } else if estimate[2].time == estimate[1].time && age > win / 2.0 {
        estimate[2] := x;
      }
      best := estimate[0].value;
    }
  }
}
