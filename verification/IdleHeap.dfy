/** The lazy idle-expiry heap of `pemi/src/lib.rs`, and sums over the connection map. */
module IdleHeap {
  import opened Base
  import opened Connections

  datatype AccessTime = AccessTime(time: Time, id: ConnId)

  /** The heap holds every connection exactly once, and nothing else. */
  ghost predicate HeapMatches(heap: seq<AccessTime>, ids: set<ConnId>) {
    && (forall i :: 0 <= i < |heap| ==> heap[i].id in ids)
    && (forall i, j :: 0 <= i < j < |heap| ==> heap[i].id != heap[j].id)
    && (forall id :: id in ids ==> exists i :: 0 <= i < |heap| && heap[i].id == id)
  }

  /** Entry `i` is at the top: no entry is older. */
  ghost predicate IsTop(heap: seq<AccessTime>, i: int) {
    0 <= i < |heap| && forall j :: 0 <= j < |heap| ==> heap[i].time <= heap[j].time
  }

  /** `BinaryHeap::peek`: some oldest entry. */
  method Peek(heap: seq<AccessTime>) returns (top: nat)
    requires heap != []
    ensures IsTop(heap, top)
  {
    top := 0;
    for i := 1 to |heap|
      invariant top < i && forall j :: 0 <= j < i ==> heap[top].time <= heap[j].time
    {
      if heap[i].time < heap[top].time {
        top := i;
      }
    }
  }

  function Without(heap: seq<AccessTime>, i: nat): (r: seq<AccessTime>)
    requires i < |heap|
  {
    heap[..i] + heap[i + 1..]
  }

  /** Popping an entry takes its connection, and only it, out of the heap. */
  lemma PopKeepsMatch(heap: seq<AccessTime>, ids: set<ConnId>, i: nat)
    requires HeapMatches(heap, ids) && i < |heap|
    ensures HeapMatches(Without(heap, i), ids - {heap[i].id})
  {
    var r := Without(heap, i);
    forall id | id in ids - {heap[i].id}
      ensures exists k :: 0 <= k < |r| && r[k].id == id
    {
      var k :| 0 <= k < |heap| && heap[k].id == id;
      assert r[if k < i then k else k - 1].id == id;
    }
  }

  /** Pushing an entry for a connection that has none puts it in. */
  lemma PushKeepsMatch(heap: seq<AccessTime>, ids: set<ConnId>, e: AccessTime)
    requires HeapMatches(heap, ids) && e.id !in ids
    ensures HeapMatches(heap + [e], ids + {e.id})
  {
    forall id | id in ids + {e.id}
      ensures exists k :: 0 <= k < |heap + [e]| && (heap + [e])[k].id == id
    {
      if id == e.id {
        assert (heap + [e])[|heap|].id == id;
      } else {
        var k :| 0 <= k < |heap| && heap[k].id == id;
        assert (heap + [e])[k].id == id;
      }
    }
  }

  predicate IsStale(e: AccessTime, now: Time) {
    Since(now, e.time) >= IDLE_TIMEOUT
  }

  /** The entry of connection `id` is stale. */
  ghost predicate HasStale(heap: seq<AccessTime>, id: ConnId, now: Time) {
    exists i :: 0 <= i < |heap| && heap[i].id == id && IsStale(heap[i], now)
  }

  /** Handling one entry, with or without re-inserting it, leaves the entries of other connections. */
  lemma StaleElsewhere(heap: seq<AccessTime>, top: nat, e: AccessTime, id: ConnId, now: Time)
    requires top < |heap| && heap[top].id != id && e.id != id
    ensures HasStale(Without(heap, top), id, now) == HasStale(heap, id, now)
    ensures HasStale(Without(heap, top) + [e], id, now) == HasStale(heap, id, now)
  {
    hide IsStale;
    var r := Without(heap, top);
    if HasStale(heap, id, now) {
      var i :| 0 <= i < |heap| && heap[i].id == id && IsStale(heap[i], now);
      var k := if i < top then i else i - 1;
      assert r[k] == heap[i] && (r + [e])[k] == heap[i];
    }
    if HasStale(r + [e], id, now) {
      var k :| 0 <= k < |r + [e]| && (r + [e])[k].id == id && IsStale((r + [e])[k], now);
      assert r[k] == (r + [e])[k];
    }
    if HasStale(r, id, now) {
      var k :| 0 <= k < |r| && r[k].id == id && IsStale(r[k], now);
      assert heap[if k < top then k else k + 1] == r[k];
    }
  }

  /**
   A sweep at `now` that found these connections idle has come from `heap` and `ids` to `after`
   and `left`: the connections gone were idle and their entries stale; a stale entry of an idle
   connection is still there if the connection is; other entries are new only if re-inserted at
   `now` for a stale one, and gone only if they were stale.
   */
  ghost predicate IsSwept(heap: seq<AccessTime>, ids: set<ConnId>, idle: set<ConnId>,
                          after: seq<AccessTime>, left: set<ConnId>, now: Time) {
    && left <= ids
    && (forall id :: id in ids && id !in left ==> id in idle && HasStale(heap, id, now))
    && (forall id :: id in left && id in idle ==> (HasStale(after, id, now) <==> HasStale(heap, id, now)))
    && (forall e :: e in after ==> e in heap || (e.time == now && HasStale(heap, e.id, now)))
    && (forall e :: e in heap && !IsStale(e, now) ==> e in after)
  }

  lemma SweptNone(heap: seq<AccessTime>, ids: set<ConnId>, idle: set<ConnId>, now: Time)
    ensures IsSwept(heap, ids, idle, heap, ids, now)
  {
  }

  /** One stale entry is handled. */
  lemma SweptOne(heap: seq<AccessTime>, ids: set<ConnId>, idle: set<ConnId>, top: nat, now: Time)
    requires top < |heap| && IsStale(heap[top], now)
    ensures var id, rest := heap[top].id, Without(heap, top);
            if id in idle then IsSwept(heap, ids, idle, rest, ids - {id}, now)
            else IsSwept(heap, ids, idle, rest + [AccessTime(now, id)], ids, now)
  {
    var e, rest := heap[top], Without(heap, top);
    assert HasStale(heap, e.id, now);
    hide IsStale;
    forall id | id in ids && id != e.id
      ensures HasStale(rest, id, now) == HasStale(rest + [AccessTime(now, e.id)], id, now) == HasStale(heap, id, now)
    {
      StaleElsewhere(heap, top, AccessTime(now, e.id), id, now);
    }
    hide HasStale;
    forall d | d in heap && d != e
      ensures d in rest
    {
      var i :| 0 <= i < |heap| && heap[i] == d;
      assert rest[if i < top then i else i - 1] == d;
    }
  }

  lemma SweptThen(heap: seq<AccessTime>, ids: set<ConnId>, idle: set<ConnId>, mid: seq<AccessTime>, some: set<ConnId>,
                  after: seq<AccessTime>, left: set<ConnId>, now: Time)
    requires IsSwept(heap, ids, idle, mid, some, now) && IsSwept(mid, some, idle, after, left, now)
    ensures IsSwept(heap, ids, idle, after, left, now)
  {
    forall id | HasStale(mid, id, now)
      ensures HasStale(heap, id, now)
    {
      var i :| 0 <= i < |mid| && mid[i].id == id && IsStale(mid[i], now);
      assert mid[i] in heap;
    }
    hide HasStale, IsStale;
  }

  /** A sweep that leaves no stale entry has removed exactly the idle connections with stale entries. */
  lemma SweptAll(heap: seq<AccessTime>, ids: set<ConnId>, idle: set<ConnId>,
                 after: seq<AccessTime>, left: set<ConnId>, now: Time)
    requires IsSwept(heap, ids, idle, after, left, now)
    requires forall i :: 0 <= i < |after| ==> !IsStale(after[i], now)
    ensures forall id :: id in left <==> id in ids && !(id in idle && HasStale(heap, id, now))
  {
    assert forall id :: !HasStale(after, id, now);
  }

  /** A new entry, for another connection, changes nothing for this one. */
  lemma StaleBefore(heap: seq<AccessTime>, e: AccessTime, id: ConnId, now: Time)
    requires e.id != id
    ensures HasStale(heap + [e], id, now) == HasStale(heap, id, now)
  {
    hide IsStale;
    if HasStale(heap, id, now) {
      var i :| 0 <= i < |heap| && heap[i].id == id && IsStale(heap[i], now);
      assert (heap + [e])[i] == heap[i];
    }
  }

  /** How many entries the sweep still has to look at. */
  ghost function StaleCount(heap: seq<AccessTime>, now: Time): nat {
    if heap == [] then 0
    else StaleCount(heap[..|heap| - 1], now) + (if IsStale(heap[|heap| - 1], now) then 1 else 0)
  }

  lemma {:induction false} StaleCountSplits(heap: seq<AccessTime>, i: nat, now: Time)
    requires i <= |heap|
    ensures StaleCount(heap, now) == StaleCount(heap[..i], now) + StaleCount(heap[i..], now)
    decreases |heap|
  {
    if i == |heap| {
      assert heap[..i] == heap;
    } else {
      var front := heap[..|heap| - 1];
      StaleCountSplits(front, i, now);
      assert front[..i] == heap[..i] && heap[i..][..|heap| - i - 1] == front[i..];
    }
  }

  /** Handling a stale entry, with or without re-inserting it at `now`, leaves fewer stale ones. */
  lemma FewerStale(heap: seq<AccessTime>, i: nat, now: Time)
    requires i < |heap| && IsStale(heap[i], now)
    ensures StaleCount(Without(heap, i), now) == StaleCount(heap, now) - 1
    ensures StaleCount(Without(heap, i) + [AccessTime(now, heap[i].id)], now) == StaleCount(heap, now) - 1
  {
    var r := Without(heap, i);
    StaleCountSplits(heap, i, now);
    StaleCountSplits(heap[i..], 1, now);
    assert heap[i..][..1] == [heap[i]] && heap[i..][1..] == heap[i + 1..];
    assert StaleCount([heap[i]], now) == 1 by {
      assert [heap[i]][..0] == [];
    }
    StaleCountSplits(r, i, now);
    assert r[..i] == heap[..i] && r[i..] == heap[i + 1..];
    var e := AccessTime(now, heap[i].id);
    assert (r + [e])[..|r|] == r;
  }

  // ---------------------------------------------------------------- sums

  ghost function Total(m: map<ConnId, nat>): nat
    decreases |m|
  {
    if m == map[] then 0
    else
      var k :| k in m;
      m[k] + Total(m - {k})
  }

  lemma {:induction false} TotalTakesOut(m: map<ConnId, nat>, k: ConnId)
    requires k in m
    ensures Total(m) == m[k] + Total(m - {k})
    decreases |m|
  {
    var j :| j in m && Total(m) == m[j] + Total(m - {j});
    if j != k {
      TotalTakesOut(m - {j}, k);
      TotalTakesOut(m - {k}, j);
      assert m - {j} - {k} == m - {k} - {j};
    }
  }

  /** Replacing or adding one entry changes the total by the difference. */
  lemma TotalOfUpdate(m: map<ConnId, nat>, k: ConnId, v: nat)
    ensures Total(m[k := v]) + (if k in m then m[k] else 0) == Total(m) + v
  {
    TotalTakesOut(m[k := v], k);
    assert m[k := v] - {k} == m - {k};
    if k in m {
      TotalTakesOut(m, k);
    } else {
      assert m - {k} == m;
    }
  }
}
