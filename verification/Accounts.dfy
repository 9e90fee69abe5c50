/**
 The books of the middlebox: connections as it sees them, the idle heap, pending
 retransmission tasks and the packet counters. Every step of `pemi/src/lib.rs` is one of
 the entries below; each keeps the books in order.
 */
module Accounts {
  import opened Base
  import opened Flowlets
  import opened Connections
  import opened IdleHeap

  /** Below this many datagrams the retransmission rate is not limited. */
  const UNLIMITED_PKTS: nat := 100

  datatype Books = Books(
    views: map<ConnId, View>, heap: seq<AccessTime>, tasks: seq<Task>, pkts: nat, retransPkts: nat, clock: Time)

  /** Connections are filed under the ID of their two ends, and have no future. */
  ghost predicate Filed(b: Books) {
    forall id :: id in b.views ==>
      && ConnIdOf(b.views[id].client, b.views[id].server) == id
      && b.views[id].lastAccess <= b.views[id].clock <= b.clock
  }

  /**
   The heap holds each connection exactly once; an entry is never from the future and less
   than one idle timeout newer than the last access to its connection.
   */
  ghost predicate HeapOk(b: Books) {
    && HeapMatches(b.heap, b.views.Keys)
    && forall i :: 0 <= i < |b.heap| ==> EntryOk(b, b.heap[i])
  }

  ghost predicate EntryOk(b: Books, e: AccessTime) {
    e.id in b.views && e.time <= b.clock && b.views[e.id].lastAccess > e.time - IDLE_TIMEOUT
  }

  /** The connection a task belongs to. */
  function TaskId(task: Task): ConnId {
    ConnIdOf(task.src, task.dst)
  }

  /**
   A task can be carried out: its connection exists, it goes from that server to that client,
   and its packets are losses that were not sent again yet.
   */
  ghost predicate TaskOk(b: Books, task: Task) {
    var id := TaskId(task);
    id in b.views && task.src == b.views[id].server != b.views[id].client && CanResend(b.views[id], task.queue)
  }

  /** No task belongs to this connection. */
  ghost predicate NoTaskFor(tasks: seq<Task>, id: ConnId) {
    forall i :: 0 <= i < |tasks| ==> TaskId(tasks[i]) != id
  }

  /** All tasks can be carried out, and no connection has two. */
  ghost predicate TasksOk(b: Books) {
    && (forall i :: 0 <= i < |b.tasks| ==> TaskOk(b, b.tasks[i]))
    && (forall i, j :: 0 <= i < j < |b.tasks| ==> TaskId(b.tasks[i]) != TaskId(b.tasks[j]))
  }

  ghost function Loads(views: map<ConnId, View>): map<ConnId, nat> {
    map id | id in views :: views[id].load
  }

  ghost function TaskLoad(tasks: seq<Task>): nat {
    if tasks == [] then 0 else TaskLoad(tasks[..|tasks| - 1]) + |tasks[|tasks| - 1].queue|
  }

  /** Retransmissions made, planned and still possible. */
  ghost function Used(b: Books): nat {
    b.retransPkts + TaskLoad(b.tasks) + Total(Loads(b.views))
  }

  /** The limit as the original tests it: the last retransmission was within a tenth of the datagrams. */
  ghost predicate RateOk(b: Books) {
    b.retransPkts <= UNLIMITED_PKTS || 10 * (b.retransPkts - 1) <= b.pkts
  }

  /** The books are in order, and `spare` more retransmissions would still be covered. */
  ghost predicate Balanced(b: Books, spare: nat) {
    Filed(b) && HeapOk(b) && TasksOk(b) && Used(b) + spare <= b.pkts && RateOk(b)
  }

  /** The counters alone: no more retransmissions than datagrams, and within the limit. */
  ghost predicate WithinLimit(retransPkts: nat, pkts: nat) {
    retransPkts <= pkts && (retransPkts <= UNLIMITED_PKTS || retransPkts <= pkts / 10 + 1)
  }

  /** With the books in order, retransmissions are within the limit, and stay so as datagrams arrive. */
  lemma RetransmissionsAreBounded(b: Books, spare: nat, more: nat)
    requires Balanced(b, spare)
    ensures WithinLimit(b.retransPkts, b.pkts + more)
  {
  }

  lemma LoadOfUpdate(views: map<ConnId, View>, id: ConnId, v: View)
    ensures Total(Loads(views[id := v])) + (if id in views then views[id].load else 0) == Total(Loads(views)) + v.load
  {
    assert Loads(views[id := v]) == Loads(views)[id := v.load];
    TotalOfUpdate(Loads(views), id, v.load);
  }

  lemma LoadOfRemoval(views: map<ConnId, View>, id: ConnId)
    requires id in views
    ensures Total(Loads(views)) == views[id].load + Total(Loads(views - {id}))
  {
    assert Loads(views - {id}) == Loads(views) - {id};
    TotalTakesOut(Loads(views), id);
  }

  // ---------------------------------------------------------------- entries

  /** A connection was touched at `now`. */
  ghost function Touched(b: Books, id: ConnId, v: View, now: Time): Books
    requires id in b.views
  {
    b.(views := b.views[id := v], clock := now)
  }

  /** The later view of the same connection, after a step that sends nothing again. */
  ghost predicate Succeeds(v: View, u: View) {
    && v.client == u.client && v.server == u.server && u.lastAccess <= v.lastAccess
    && u.added <= v.added && v.resent == u.resent && u.drained <= v.drained
  }

  lemma StillCanResend(v: View, u: View, losses: seq<Datagram>)
    requires Succeeds(v, u) && CanResend(u, losses)
    ensures CanResend(v, losses)
  {
  }

  lemma TouchKeepsBooks(b: Books, spare: nat, id: ConnId, v: View, now: Time, left: nat)
    requires Balanced(b, spare) && id in b.views && b.clock <= now
    requires Succeeds(v, b.views[id]) && v.lastAccess <= v.clock <= now
    requires v.load + left <= b.views[id].load + spare
    ensures Balanced(Touched(b, id, v, now), left)
  {
    TouchKeepsHeap(b, id, v, now);
    TouchKeepsTasks(b, id, v, now);
    TouchKeepsFiling(b, id, v, now);
    hide Filed, HeapOk, TasksOk, Total, TaskLoad, Loads;
    LoadOfUpdate(b.views, id, v);
  }

  lemma TouchKeepsFiling(b: Books, id: ConnId, v: View, now: Time)
    requires Filed(b) && id in b.views && b.clock <= now
    requires v.client == b.views[id].client && v.server == b.views[id].server
    requires v.lastAccess <= v.clock <= now
    ensures Filed(Touched(b, id, v, now))
  {
  }

  lemma TouchKeepsHeap(b: Books, id: ConnId, v: View, now: Time)
    requires HeapOk(b) && id in b.views && b.clock <= now && b.views[id].lastAccess <= v.lastAccess
    ensures HeapOk(Touched(b, id, v, now))
  {
    hide HeapMatches;
    assert Touched(b, id, v, now).views.Keys == b.views.Keys;
    assert forall i :: 0 <= i < |b.heap| ==> EntryOk(b, b.heap[i]);
  }

  lemma TouchKeepsTasks(b: Books, id: ConnId, v: View, now: Time)
    requires TasksOk(b) && id in b.views && Succeeds(v, b.views[id])
    ensures TasksOk(Touched(b, id, v, now))
  {
    hide CanResend;
    var c := Touched(b, id, v, now);
    forall i | 0 <= i < |c.tasks|
      ensures TaskOk(c, c.tasks[i])
    {
      assert TaskOk(b, b.tasks[i]);
      if TaskId(b.tasks[i]) == id {
        StillCanResend(v, b.views[id], b.tasks[i].queue);
      }
    }
  }

  /** A datagram was received: one more retransmission is covered. */
  lemma CountKeepsBooks(b: Books)
    requires Balanced(b, 0)
    ensures Balanced(b.(pkts := b.pkts + 1), 1)
  {
    hide HeapMatches, Total, TaskLoad;
    assert forall i :: 0 <= i < |b.tasks| ==> TaskOk(b, b.tasks[i]);
    assert forall i :: 0 <= i < |b.heap| ==> EntryOk(b, b.heap[i]);
  }

  lemma SpareIsOptional(b: Books, spare: nat)
    requires Balanced(b, spare)
    ensures Balanced(b, 0)
  {
  }

  lemma TimePasses(b: Books, spare: nat, now: Time)
    requires Balanced(b, spare) && b.clock <= now
    ensures Balanced(b.(clock := now), spare)
  {
    hide HeapMatches, Total, TaskLoad;
    assert forall i :: 0 <= i < |b.tasks| ==> TaskOk(b, b.tasks[i]);
    assert forall i :: 0 <= i < |b.heap| ==> EntryOk(b, b.heap[i]);
  }

  lemma HeapEntryExists(b: Books, spare: nat, i: nat)
    requires Balanced(b, spare) && i < |b.heap|
    ensures b.heap[i].id in b.views
  {
  }

  lemma FiledById(b: Books, spare: nat, id: ConnId)
    requires Balanced(b, spare) && id in b.views
    ensures ConnIdOf(b.views[id].client, b.views[id].server) == id
  {
  }

  lemma SpareShrinks(b: Books, spare: nat, less: nat)
    requires Balanced(b, spare) && less <= spare
    ensures Balanced(b, less)
  {
  }

  /** The newest task was taken off the list; what it carries is still covered. */
  lemma PopTaskKeepsBooks(b: Books)
    requires Balanced(b, 0) && b.tasks != []
    ensures TaskOk(b, b.tasks[|b.tasks| - 1])
    ensures NoTaskFor(b.tasks[..|b.tasks| - 1], TaskId(b.tasks[|b.tasks| - 1]))
    ensures Balanced(b.(tasks := b.tasks[..|b.tasks| - 1]), |b.tasks[|b.tasks| - 1].queue|)
  {
    hide HeapMatches, Total, CanResend;
    var c := b.(tasks := b.tasks[..|b.tasks| - 1]);
    assert forall i :: 0 <= i < |c.tasks| ==> c.tasks[i] == b.tasks[i] && TaskOk(b, b.tasks[i]);
  }

  lemma ClockIsAhead(b: Books, spare: nat, id: ConnId)
    requires Balanced(b, spare) && id in b.views
    ensures b.views[id].lastAccess <= b.views[id].clock <= b.clock
  {
  }

  /** A connection was created at `now`. */
  ghost function Opened(b: Books, id: ConnId, v: View, now: Time): Books {
    b.(views := b.views[id := v], heap := b.heap + [AccessTime(now, id)], clock := now)
  }

  lemma OpenKeepsBooks(b: Books, spare: nat, id: ConnId, v: View, now: Time)
    requires Balanced(b, spare) && id !in b.views && b.clock <= now
    requires ConnIdOf(v.client, v.server) == id && v.lastAccess == v.clock == now && v.load == 0
    ensures Balanced(Opened(b, id, v, now), spare)
  {
    OpenKeepsHeap(b, id, v, now);
    OpenKeepsTasks(b, id, v, now);
    OpenKeepsFiling(b, id, v, now);
    hide Filed, HeapOk, TasksOk, Total, TaskLoad, Loads;
    LoadOfUpdate(b.views, id, v);
  }

  lemma OpenKeepsFiling(b: Books, id: ConnId, v: View, now: Time)
    requires Filed(b) && b.clock <= now && ConnIdOf(v.client, v.server) == id && v.lastAccess == v.clock == now
    ensures Filed(Opened(b, id, v, now))
  {
  }

  lemma OpenKeepsTasks(b: Books, id: ConnId, v: View, now: Time)
    requires TasksOk(b) && id !in b.views
    ensures TasksOk(Opened(b, id, v, now))
  {
    assert forall i :: 0 <= i < |b.tasks| ==> TaskOk(b, b.tasks[i]);
  }

  lemma OpenKeepsHeap(b: Books, id: ConnId, v: View, now: Time)
    requires HeapOk(b) && id !in b.views && b.clock <= now && v.lastAccess == now
    ensures HeapOk(Opened(b, id, v, now))
  {
    var c := Opened(b, id, v, now);
    PushKeepsMatch(b.heap, b.views.Keys, AccessTime(now, id));
    assert c.views.Keys == b.views.Keys + {id};
    forall i | 0 <= i < |c.heap|
      ensures EntryOk(c, c.heap[i])
    {
      assert i < |b.heap| ==> c.heap[i] == b.heap[i] && EntryOk(b, b.heap[i]);
    }
  }

  /** A connection was removed, with its heap entry. */
  ghost function Closed(b: Books, top: nat): Books
    requires top < |b.heap|
  {
    b.(views := b.views - {b.heap[top].id}, heap := Without(b.heap, top))
  }

  lemma CloseKeepsBooks(b: Books, spare: nat, top: nat)
    requires Balanced(b, spare) && top < |b.heap|
    requires NoTaskFor(b.tasks, b.heap[top].id)
    ensures Balanced(Closed(b, top), spare)
  {
    CloseKeepsHeap(b, top);
    CloseKeepsTasks(b, top);
    hide HeapOk, TasksOk, Total, TaskLoad, Loads;
    LoadOfRemoval(b.views, b.heap[top].id);
  }

  lemma CloseKeepsTasks(b: Books, top: nat)
    requires TasksOk(b) && top < |b.heap|
    requires NoTaskFor(b.tasks, b.heap[top].id)
    ensures TasksOk(Closed(b, top))
  {
    assert forall i :: 0 <= i < |b.tasks| ==> TaskOk(b, b.tasks[i]);
  }

  lemma CloseKeepsHeap(b: Books, top: nat)
    requires HeapOk(b) && top < |b.heap|
    ensures HeapOk(Closed(b, top)) && b.heap[top].id in b.views
  {
    var c, id := Closed(b, top), b.heap[top].id;
    PopKeepsMatch(b.heap, b.views.Keys, top);
    assert c.views.Keys == b.views.Keys - {id};
    forall i | 0 <= i < |c.heap|
      ensures EntryOk(c, c.heap[i])
    {
      var e := b.heap[if i < top then i else i + 1];
      assert c.heap[i] == e && EntryOk(b, e) && e.id in c.views;
    }
  }

  /** A connection found not idle was entered again at `now`. */
  ghost function Reentered(b: Books, top: nat, now: Time): Books
    requires top < |b.heap|
  {
    b.(heap := Without(b.heap, top) + [AccessTime(now, b.heap[top].id)])
  }

  lemma ReenterKeepsBooks(b: Books, spare: nat, top: nat)
    requires Balanced(b, spare) && top < |b.heap|
    requires b.heap[top].id in b.views && Since(b.clock, b.views[b.heap[top].id].lastAccess) < IDLE_TIMEOUT
    ensures Balanced(Reentered(b, top, b.clock), spare)
  {
    ReenterKeepsHeap(b, top);
    HeapIsApart(b, Reentered(b, top, b.clock).heap);
    hide Filed, HeapOk, TasksOk, Total, Loads, TaskLoad;
  }

  /** Filing and tasks have nothing to do with the heap. */
  lemma HeapIsApart(b: Books, heap: seq<AccessTime>)
    ensures Filed(b) ==> Filed(b.(heap := heap))
    ensures TasksOk(b) ==> TasksOk(b.(heap := heap))
  {
    hide CanResend;
    var c := b.(heap := heap);
    assert forall t :: TaskOk(b, t) <==> TaskOk(c, t);
  }

  lemma ReenterKeepsHeap(b: Books, top: nat)
    requires HeapOk(b) && top < |b.heap|
    requires b.heap[top].id in b.views && Since(b.clock, b.views[b.heap[top].id].lastAccess) < IDLE_TIMEOUT
    ensures HeapOk(Reentered(b, top, b.clock))
  {
    var c, id := Reentered(b, top, b.clock), b.heap[top].id;
    var rest := Without(b.heap, top);
    PopKeepsMatch(b.heap, b.views.Keys, top);
    hide HeapMatches;
    PushKeepsMatch(rest, b.views.Keys - {id}, AccessTime(b.clock, id));
    assert b.views.Keys - {id} + {id} == b.views.Keys;
    forall i | 0 <= i < |c.heap|
      ensures EntryOk(c, c.heap[i])
    {
      ReenteredEntry(b, top, i);
    }
  }

  lemma ReenteredEntry(b: Books, top: nat, i: nat)
    requires (forall k :: 0 <= k < |b.heap| ==> EntryOk(b, b.heap[k])) && top < |b.heap|
    requires b.heap[top].id in b.views && Since(b.clock, b.views[b.heap[top].id].lastAccess) < IDLE_TIMEOUT
    requires i < |Reentered(b, top, b.clock).heap|
    ensures var c := Reentered(b, top, b.clock); EntryOk(c, c.heap[i])
  {
    var c := Reentered(b, top, b.clock);
    if i < |b.heap| - 1 {
      var k := if i < top then i else i + 1;
      assert c.heap[i] == b.heap[k] && EntryOk(b, b.heap[k]);
    } else {
      assert c.heap[i] == AccessTime(b.clock, b.heap[top].id);
    }
  }

  /** Losses of a connection became a task, its only one. */
  lemma TaskKeepsBooks(b: Books, id: ConnId, v: View, task: Task)
    requires Balanced(b, 0) && id in b.views && id == TaskId(task) && NoTaskFor(b.tasks, id)
    requires Succeeds(v, b.views[id]) && v.lastAccess <= v.clock <= b.clock
    requires v.load + |task.queue| <= b.views[id].load
    requires task.src == v.server != v.client && CanResend(v, task.queue)
    ensures Balanced(b.(views := b.views[id := v], tasks := b.tasks + [task]), 0)
  {
    hide Balanced, CanResend;
    TouchKeepsBooks(b, 0, id, v, b.clock, |task.queue|);
    AppendKeepsBooks(Touched(b, id, v, b.clock), task);
  }

  lemma AppendKeepsBooks(c: Books, task: Task)
    requires Balanced(c, |task.queue|) && TaskOk(c, task) && NoTaskFor(c.tasks, TaskId(task))
    ensures Balanced(c.(tasks := c.tasks + [task]), 0)
  {
    hide HeapMatches, TasksOk, TaskOk, Total, Loads, TaskLoad, CanResend;
    assert forall i :: 0 <= i < |c.heap| ==> EntryOk(c, c.heap[i]);
    OneMoreTask(c, task);
  }

  lemma OneMoreTask(c: Books, task: Task)
    requires TasksOk(c) && TaskOk(c, task) && NoTaskFor(c.tasks, TaskId(task))
    ensures TasksOk(c.(tasks := c.tasks + [task]))
    ensures TaskLoad(c.tasks + [task]) == TaskLoad(c.tasks) + |task.queue|
  {
    hide CanResend;
    var d := c.(tasks := c.tasks + [task]);
    assert d.tasks[..|c.tasks|] == c.tasks;
    forall i | 0 <= i < |d.tasks|
      ensures TaskOk(d, d.tasks[i])
    {
      assert i < |c.tasks| ==> TaskOk(c, c.tasks[i]);
    }
  }

  /** A packet of connection `id`, which has no task pending, was sent again. */
  ghost function Resent(b: Books, id: ConnId, number: nat): Books
    requires id in b.views
  {
    b.(views := b.views[id := b.views[id].(resent := number)], retransPkts := b.retransPkts + 1)
  }

  /** One more packet of a task was sent: allowed early on, or while within the rate. */
  lemma RetransmitKeepsBooks(b: Books, id: ConnId, number: nat, left: nat)
    requires Balanced(b, left + 1) && id in b.views && NoTaskFor(b.tasks, id)
    requires b.pkts <= UNLIMITED_PKTS || 10 * b.retransPkts <= b.pkts
    ensures Balanced(Resent(b, id, number), left)
  {
    ResendKeepsTasks(b, id, number);
    ResendKeepsHeap(b, id, number);
    hide HeapOk, TasksOk, Total, Loads, TaskLoad;
    LoadOfUpdate(b.views, id, b.views[id].(resent := number));
  }

  lemma ResendKeepsTasks(b: Books, id: ConnId, number: nat)
    requires TasksOk(b) && id in b.views && NoTaskFor(b.tasks, id)
    ensures TasksOk(Resent(b, id, number))
  {
    hide CanResend;
    var c := Resent(b, id, number);
    forall i | 0 <= i < |c.tasks|
      ensures TaskOk(c, c.tasks[i])
    {
      assert TaskOk(b, b.tasks[i]) && TaskId(b.tasks[i]) != id;
    }
  }

  lemma ResendKeepsHeap(b: Books, id: ConnId, number: nat)
    requires HeapOk(b) && id in b.views
    ensures HeapOk(Resent(b, id, number))
  {
    hide HeapMatches;
    assert Resent(b, id, number).views.Keys == b.views.Keys;
    assert forall i :: 0 <= i < |b.heap| ==> EntryOk(b, b.heap[i]);
  }

  // ---------------------------------------------------------------- idle expiry

  /** Once no heap entry is stale, every connection was accessed within two idle timeouts. */
  lemma FreshHeapBoundsIdleTime(b: Books, spare: nat, id: ConnId)
    requires Balanced(b, spare) && id in b.views
    requires forall i :: 0 <= i < |b.heap| ==> !IsStale(b.heap[i], b.clock)
    ensures Since(b.clock, b.views[id].lastAccess) < 2.0 * IDLE_TIMEOUT
  {
    var i :| 0 <= i < |b.heap| && b.heap[i].id == id;
    assert !IsStale(b.heap[i], b.clock) && EntryOk(b, b.heap[i]);
  }
}
