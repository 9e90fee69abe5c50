/**
 What delaying acknowledgements does to the client's datagram stream: it is cut into
 consecutive blocks, and each block is sent in order or with its last datagram first.
 */
module Reordering {
  import opened Base

  datatype Block = InOrder(items: seq<Bytes>) | TailFirst(items: seq<Bytes>)
  {
    function Sent(): seq<Bytes> {
      if TailFirst? && items != [] then [items[|items| - 1]] + items[..|items| - 1] else items
    }
  }

  /** At most this many datagrams wait while nothing happens, and so are overtaken by a tail. */
  const MAX_WAITING: nat := 6

  ghost predicate WellCut(blocks: seq<Block>) {
    forall b :: 0 <= b < |blocks| ==>
      && 1 <= |blocks[b].items|
      && (blocks[b].TailFirst? ==> 2 <= |blocks[b].items| <= MAX_WAITING + 1)
  }

  ghost function ArrivalStream(blocks: seq<Block>): seq<Bytes> {
    if blocks == [] then []
    else ArrivalStream(blocks[..|blocks| - 1]) + blocks[|blocks| - 1].items
  }

  ghost function SentStream(blocks: seq<Block>): seq<Bytes> {
    if blocks == [] then []
    else SentStream(blocks[..|blocks| - 1]) + blocks[|blocks| - 1].Sent()
  }

  lemma AppendBlock(blocks: seq<Block>, b: Block)
    ensures WellCut(blocks) && WellCut([b]) ==> WellCut(blocks + [b])
    ensures ArrivalStream(blocks + [b]) == ArrivalStream(blocks) + b.items
    ensures SentStream(blocks + [b]) == SentStream(blocks) + b.Sent()
  {
    assert (blocks + [b])[..|blocks|] == blocks;
  }

  lemma BlockKeepsDatagrams(b: Block)
    ensures multiset(b.Sent()) == multiset(b.items)
  {
    if b.TailFirst? && b.items != [] {
      assert b.items == b.items[..|b.items| - 1] + [b.items[|b.items| - 1]];
    }
  }

  /** Nothing is lost, duplicated or invented. */
  lemma {:induction false} SentIsArrival(blocks: seq<Block>)
    ensures multiset(SentStream(blocks)) == multiset(ArrivalStream(blocks))
  {
    if blocks != [] {
      SentIsArrival(blocks[..|blocks| - 1]);
      BlockKeepsDatagrams(blocks[|blocks| - 1]);
      hide Block.Sent;
    }
  }

  /** For each datagram sent from a block, its position in the block as it arrived. */
  function BlockOrigins(b: Block): (o: seq<nat>)
    ensures |o| == |b.items|
  {
    if b.InOrder? then seq(|b.items|, k => k)
    else seq(|b.items|, k => if k == 0 then |b.items| - 1 else k - 1)
  }

  function Shift(o: seq<nat>, amount: nat): (r: seq<nat>)
    ensures |r| == |o| && forall p :: 0 <= p < |r| ==> r[p] == o[p] + amount
  {
    seq(|o|, p requires 0 <= p < |o| => o[p] + amount)
  }

  /** For each datagram sent, its position in the arrival stream. */
  ghost function Origins(blocks: seq<Block>): (o: seq<nat>) {
    if blocks == [] then []
    else
      var front, b := blocks[..|blocks| - 1], blocks[|blocks| - 1];
      Origins(front) + Shift(BlockOrigins(b), |ArrivalStream(front)|)
  }

  /**
   `sent` is a permutation of `arrived`, given by `o`, in which a datagram is held back by
   at most one position, and one sent early overtakes at most `MAX_WAITING` others.
   */
  ghost predicate SlightlyReordered(o: seq<nat>, sent: seq<Bytes>, arrived: seq<Bytes>) {
    && |o| == |sent| == |arrived|
    && (forall p :: 0 <= p < |o| ==> o[p] < |arrived| && sent[p] == arrived[o[p]])
    && (forall p :: 0 <= p < |o| ==> p - 1 <= o[p] <= p + MAX_WAITING)
    && (forall p, q :: 0 <= p < q < |o| ==> o[p] != o[q])
  }

  lemma BlockIsSlightlyReordered(b: Block)
    requires WellCut([b])
    ensures SlightlyReordered(BlockOrigins(b), b.Sent(), b.items)
  {
    assert [b][0] == b;
    var o, n := BlockOrigins(b), |b.items|;
    if b.InOrder? {
      assert forall k :: 0 <= k < n ==> o[k] == k;
      assert b.Sent() == b.items;
    } else {
      assert forall k :: 0 <= k < n ==> o[k] == if k == 0 then n - 1 else k - 1;
      assert forall k :: 0 <= k < n ==> b.Sent()[k] == b.items[if k == 0 then n - 1 else k - 1];
    }
    hide BlockOrigins, Block.Sent, WellCut;
  }

  lemma ReorderedInSequence(o: seq<nat>, s: seq<Bytes>, a: seq<Bytes>, o': seq<nat>, s': seq<Bytes>, a': seq<Bytes>)
    requires SlightlyReordered(o, s, a) && SlightlyReordered(o', s', a')
    ensures SlightlyReordered(o + Shift(o', |a|), s + s', a + a')
  {
    var all := o + Shift(o', |a|);
    forall p | 0 <= p < |all|
      ensures all[p] < |a + a'| && (s + s')[p] == (a + a')[all[p]] && p - 1 <= all[p] <= p + MAX_WAITING
    {
      PlaceInSequence(o, s, a, o', s', a', p);
    }
    forall p, q | 0 <= p < q < |all|
      ensures all[p] != all[q]
    {
      PlaceInSequence(o, s, a, o', s', a', p);
      PlaceInSequence(o, s, a, o', s', a', q);
    }
  }

  /** A datagram keeps its place within its part. */
  lemma PlaceInSequence(o: seq<nat>, s: seq<Bytes>, a: seq<Bytes>, o': seq<nat>, s': seq<Bytes>, a': seq<Bytes>, p: nat)
    requires SlightlyReordered(o, s, a) && SlightlyReordered(o', s', a') && p < |o| + |o'|
    ensures var n, all := |a|, o + Shift(o', |a|);
            && all[p] == (if p < n then o[p] else o'[p - n] + n) && all[p] < |a + a'|
            && (s + s')[p] == (a + a')[all[p]] && p - 1 <= all[p] <= p + MAX_WAITING
            && (p < n <==> all[p] < n)
  {
    if p >= |a| {
      assert o'[p - |a|] < |a'| && s'[p - |a|] == a'[o'[p - |a|]];
    }
  }

  /** The datagrams sent so far are the datagrams cut so far, slightly reordered. */
  lemma {:induction false} BoundedReordering(blocks: seq<Block>)
    requires WellCut(blocks)
    ensures SlightlyReordered(Origins(blocks), SentStream(blocks), ArrivalStream(blocks))
  {
    if blocks != [] {
      var front, b := blocks[..|blocks| - 1], blocks[|blocks| - 1];
      BoundedReordering(front);
      BlockIsSlightlyReordered(b);
      ReorderedInSequence(Origins(front), SentStream(front), ArrivalStream(front), BlockOrigins(b), b.Sent(), b.items);
    }
  }
}
