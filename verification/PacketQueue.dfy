// Packet queues as they are stored: a singly linked list of packets with
// pointers into it, and a ring of index entries that point into it, too.
//
// The operations are proved against the ones on queue values in module Queues.

module PacketQueue {
  import opened Timestamps
  import opened Wrappers
  import opened Packets
  import opened RingIndex
  import opened SeekTarget
  import opened Queues

  class Node {
    const packet: Packet
    var cumPos: nat
    var next: Node?

    constructor (packet: Packet)
      ensures this.packet == packet && next == null
    {
      this.packet := packet;
      next := null;
      cumPos := 0;
    }
  }

  ghost predicate Distinct(nodes: seq<Node>) {
    forall i, j :: 0 <= i < j < |nodes| ==> nodes[i] != nodes[j]
  }

  // The nodes, in this order, are the list from head to the null pointer.
  ghost predicate Linked(nodes: seq<Node>, head: Node?, tail: Node?)
    reads nodes
  {
    && Distinct(nodes)
    && head == (if |nodes| > 0 then nodes[0] else null)
    && tail == LastOf(nodes)
    && Nexts(nodes)
  }

  // Two lists that share no node.
  ghost predicate Apart(a: seq<Node>, b: seq<Node>) {
    forall i, j :: 0 <= i < |a| && 0 <= j < |b| ==> a[i] != b[j]
  }

  // A list that goes on with the given node.
  ghost predicate NextsTo(nodes: seq<Node>, end: Node?)
    reads nodes
  {
    forall i :: 0 <= i < |nodes| ==> nodes[i].next == if i + 1 < |nodes| then NodeAt(nodes, i + 1) else end
  }

  ghost predicate Nexts(nodes: seq<Node>)
    reads nodes
  {
    forall i :: 0 <= i < |nodes| ==> nodes[i].next == NodeAt(nodes, i + 1)
  }

  ghost function NodeAt(nodes: seq<Node>, i: nat): Node? {
    if i < |nodes| then nodes[i] else null
  }

  ghost function LastOf(nodes: seq<Node>): Node? {
    if |nodes| > 0 then nodes[|nodes| - 1] else null
  }

  ghost function PacketsOf(nodes: seq<Node>): (s: seq<Packet>)
    ensures |s| == |nodes|
  {
    seq(|nodes|, i requires 0 <= i < |nodes| => nodes[i].packet)
  }

  ghost function CumsOf(nodes: seq<Node>): (s: seq<nat>)
    reads nodes
    ensures |s| == |nodes|
  {
    seq(|nodes|, i requires 0 <= i < |nodes| reads nodes => nodes[i].cumPos)
  }

  // A pointer and the number of the packet it points to.
  ghost predicate PtrIs(nodes: seq<Node>, base: nat, p: Node?, ptr: Option<nat>) {
    if ptr.None? then p == null
    else base <= ptr.value < base + |nodes| && p == nodes[ptr.value - base]
  }

  ghost predicate EntryIs(nodes: seq<Node>, base: nat, e: IndexEntry<Node>, f: IndexEntry<nat>) {
    e.pts == f.pts && PtrIs(nodes, base, e.pkt, Some(f.pkt))
  }

  ghost predicate EntriesAre(nodes: seq<Node>, base: nat, es: seq<IndexEntry<Node>>, fs: seq<IndexEntry<nat>>) {
    |es| == |fs| && forall i :: 0 <= i < |es| ==> EntryIs(nodes, base, es[i], fs[i])
  }

  lemma LinkedDistinct(nodes: seq<Node>, head: Node?, tail: Node?)
    requires Linked(nodes, head, tail)
    ensures Distinct(nodes) && (head != null <==> |nodes| > 0) && (|nodes| > 0 ==> head == nodes[0])
  {
  }

  lemma LinkedEnds(nodes: seq<Node>, head: Node?, tail: Node?)
    requires Linked(nodes, head, tail)
    ensures tail == LastOf(nodes) && Linked([], null, null)
  {
  }

  lemma LinkedTail(nodes: seq<Node>, head: Node?, tail: Node?)
    requires Linked(nodes, head, tail) && |nodes| > 0
    ensures Linked(nodes[1..], nodes[0].next, if |nodes| > 1 then tail else null)
  {
    var t := nodes[1..];
    forall i | 0 <= i < |t|
      ensures t[i].next == NodeAt(t, i + 1)
    {
      assert nodes[i + 1].next == NodeAt(nodes, i + 1 + 1);
    }
  }

  lemma PacketsTail(nodes: seq<Node>)
    requires |nodes| > 0
    ensures PacketsOf(nodes[1..]) == PacketsOf(nodes)[1..]
    ensures CumsOf(nodes[1..]) == CumsOf(nodes)[1..]
  {
  }

  // What a pointer into the list becomes when the head packet is removed.
  lemma PtrTail(nodes: seq<Node>, base: nat, ptr: Option<nat>, p: Node?)
    requires Distinct(nodes) && |nodes| > 0 && PtrIs(nodes, base, p, ptr)
    ensures PtrIs(nodes[1..], base + 1, if p == nodes[0] then null else p, if ptr == Some(base) then None else ptr)
  {
  }

  lemma EntriesExtended(nodes: seq<Node>, more: seq<Node>, base: nat, es: seq<IndexEntry<Node>>, fs: seq<IndexEntry<nat>>)
    requires EntriesAre(nodes, base, es, fs)
    ensures EntriesAre(nodes + more, base, es, fs)
  {
    forall i | 0 <= i < |es|
      ensures EntryIs(nodes + more, base, es[i], fs[i])
    {
      assert EntryIs(nodes, base, es[i], fs[i]);
    }
  }

  // The index after the head packet was removed.
  lemma EntriesTail(nodes: seq<Node>, base: nat, es: seq<IndexEntry<Node>>, fs: seq<IndexEntry<nat>>)
    requires EntriesAre(nodes, base, es, fs) && Distinct(nodes) && |nodes| > 0
    requires forall i, j :: 0 <= i < j < |fs| ==> fs[i].pkt < fs[j].pkt
    ensures EntriesAre(nodes[1..], base + 1, DropIfFirst(es, nodes[0]), DropIfFirst(fs, base))
  {
    var es', fs' := DropIfFirst(es, nodes[0]), DropIfFirst(fs, base);
    assert |es| > 0 ==> EntryIs(nodes, base, es[0], fs[0]);
    forall i | 0 <= i < |es'|
      ensures EntryIs(nodes[1..], base + 1, es'[i], fs'[i])
    {
      var k := if |es'| < |es| then i + 1 else i;
      assert EntryIs(nodes, base, es[k], fs[k]);
      assert fs[k].pkt > base;
    }
  }

  class PacketQueue {
    var head: Node?
    var tail: Node?
    var tailCumPos: nat
    var keyframeLatest: Node?
    var keyframeFirst: Node?
    const ring: Ring<Node>
    ghost var nodes: seq<Node>
    ghost var base: nat       // number of the head packet

    ghost predicate Valid()
      reads this, nodes, ring, ring.index
    {
      Linked(nodes, head, tail) && ring.Valid()
    }

    // Index entries are in the order of the list.
    ghost predicate Ordered(q: Queue) {
      forall i, j :: 0 <= i < j < |q.index| ==> q.index[i].pkt < q.index[j].pkt
    }

    ghost predicate ListIs(q: Queue)
      reads this, nodes
    {
      q.pkts == PacketsOf(nodes) && q.cum == CumsOf(nodes) && q.tailCum == tailCumPos && q.base == base
    }

    ghost predicate PointersAre(q: Queue)
      reads this
    {
      PtrIs(nodes, base, keyframeLatest, q.kfLatest) && PtrIs(nodes, base, keyframeFirst, q.kfFirst)
    }

    ghost predicate IndexIs(q: Queue)
      requires ring.Shape()
      reads this, ring, ring.index
    {
      EntriesAre(nodes, base, ring.Entries(), q.index) && ring.index.Length == q.indexSize
    }

    // The queue stores the list, pointers and index of the given value.
    ghost predicate Represents(q: Queue)
      requires ring.Shape()
      reads this, nodes, ring, ring.index
    {
      ListIs(q) && PointersAre(q) && IndexIs(q)
    }

    constructor ()
      ensures Valid() && fresh(ring) && fresh(ring.index) && nodes == []
      ensures Represents(NewQueue())
    {
      head, tail, tailCumPos, keyframeLatest, keyframeFirst := null, null, 0, null, null;
      nodes, base := [], 0;
      ring := new Ring<Node>();
    }

    // The list part of add_packet_locked().
    method Append(dp: Node, ghost q: Queue)
      requires Valid() && Represents(q) && dp !in nodes && dp.next == null
      modifies this, nodes, dp
      ensures Valid() && nodes == old(nodes) + [dp]
      ensures Represents(Queues.Append(q, dp.packet))
    {
      hide EntriesAre, Unrolled, IsPow2, Spaced, Linked, CumsOf;
      EntriesExtended(nodes, [dp], base, ring.Entries(), q.index);
      LinkTail(dp);
    }

    method LinkTail(dp: Node)
      requires Linked(nodes, head, tail) && dp !in nodes && dp.next == null
      modifies this`head, this`tail, this`tailCumPos, this`nodes, nodes, dp
      ensures Linked(nodes, head, tail) && nodes == old(nodes) + [dp]
      ensures CumsOf(nodes) == old(CumsOf(nodes)) + [old(tailCumPos)]
      ensures tailCumPos == old(tailCumPos) + dp.packet.size
    {
      dp.cumPos := tailCumPos;
      tailCumPos := tailCumPos + dp.packet.size;
      if tail != null {
        tail.next := dp;
        tail := dp;
      } else {
        head, tail := dp, dp;
      }
      nodes := nodes + [dp];
      TailLinked(dp);
    }

    // What the assignments above do to the list.
    twostate lemma TailLinked(dp: Node)
      requires old(Linked(nodes, head, tail)) && dp !in old(nodes) && dp.next == null && dp.cumPos == old(tailCumPos)
      requires nodes == old(nodes) + [dp] && tail == dp && head == (if old(tail) == null then dp else old(head))
      requires old(tail) != null ==> old(tail).next == dp
      requires forall n :: n in old(nodes) ==> n.cumPos == old(n.cumPos) && (n != old(tail) ==> n.next == old(n.next))
      ensures Linked(nodes, head, tail) && CumsOf(nodes) == old(CumsOf(nodes)) + [old(tailCumPos)]
    {
      ghost var was := old(nodes);
      forall i | 0 <= i < |nodes|
        ensures nodes[i].next == NodeAt(nodes, i + 1)
      {
        if i < |was| {
          assert old(was[i].next) == NodeAt(was, i + 1) && was[i] in was;
        }
      }
    }

    // Takes the head packet out of the list.
    method UnlinkHead() returns (dp: Node, bytes: int)
      requires Linked(nodes, head, tail) && head != null
      modifies this`head, this`tail, this`nodes, this`base
      ensures Linked(nodes, head, tail)
      ensures |old(nodes)| > 0 && dp == old(nodes)[0] && nodes == old(nodes)[1..] && base == old(base) + 1
      ensures bytes == (if |nodes| > 0 then nodes[0].cumPos else tailCumPos) - dp.cumPos
    {
      LinkedTail(nodes, head, tail);
      dp := head;
      var next := dp.next;
      assert next == NodeAt(nodes, 1);
      var endPos := if next != null then next.cumPos else tailCumPos;
      bytes := endPos - dp.cumPos;
      head := next;
      if head == null {
        tail := null;
      }
      nodes, base := nodes[1..], base + 1;
    }

    // Forgets pointers to the head packet.
    method DropHeadPointers(ghost q: Queue)
      requires Linked(nodes, head, tail) && PointersAre(q) && q.base == base && head != null
      modifies this`keyframeFirst, this`keyframeLatest
      ensures |nodes| > 0
      ensures PtrIs(nodes[1..], base + 1, keyframeFirst, if q.kfFirst == Some(base) then None else q.kfFirst)
      ensures PtrIs(nodes[1..], base + 1, keyframeLatest, if q.kfLatest == Some(base) then None else q.kfLatest)
    {
      hide PtrIs;
      PtrTail(nodes, base, q.kfFirst, keyframeFirst);
      PtrTail(nodes, base, q.kfLatest, keyframeLatest);
      if keyframeFirst == head {
        keyframeFirst := null;
      }
      if keyframeLatest == head {
        keyframeLatest := null;
      }
    }

    // remove_head_packet(). Returns the bytes this removes.
    method RemoveHeadPacket(ghost q: Queue) returns (bytes: int)
      requires Valid() && Represents(q) && Ordered(q) && head != null
      modifies this, ring
      ensures Valid() && nodes == old(nodes)[1..] && ring.index == old(ring.index)
      ensures |q.pkts| > 0 && |q.cum| == |q.pkts| && bytes == HeadBytes(q)
      ensures ListIs(RemoveHead(q)) && PointersAre(RemoveHead(q)) && IndexIs(RemoveHead(q))
    {
      hide EntriesAre, PtrIs, Unrolled, IsPow2, Spaced, PacketsOf, CumsOf, Linked, Distinct, NextCum, DropIfFirst;
      LinkedDistinct(nodes, head, tail);
      EntriesTail(nodes, base, ring.Entries(), q.index);
      PacketsTail(nodes);
      SecondCum(q);
      DropHeadPointers(q);
      ring.RemoveHead(head);
      var dp;
      dp, bytes := UnlinkHead();
    }

    lemma SecondCum(q: Queue)
      requires Linked(nodes, head, tail) && ListIs(q) && head != null
      ensures |q.pkts| > 0 && |q.cum| == |q.pkts|
      ensures NextCum(q, 0) == (if |nodes| > 1 then nodes[1].cumPos else tailCumPos) && q.cum[0] == nodes[0].cumPos
    {
    }

    // --- Searching ---

    // compute_keyframe_times(): pkt is the k-th node, or null behind the last one.
    method ComputeKeyframeTimes(pkt: Node?, ghost k: nat) returns (next: Node?, kfMin: real, kfMax: real)
      requires Linked(nodes, head, tail) && k <= |nodes| && pkt == NodeAt(nodes, k)
      ensures k == |nodes| ==> next == null && kfMin == kfMax == NOPTS
      ensures k < |nodes| ==>
                var s := PacketsOf(nodes);
                next == NodeAt(nodes, RunEnd(s, k)) && kfMin == RunMin(s, k) && kfMax == RunMax(s, k)
    {
      hide MinTime, MaxTime, PtsMin, PtsMax, PtsOrDef, NextKeyframe;
      ghost var s := PacketsOf(nodes);
      ghost var j := k;
      next, kfMin, kfMax := pkt, NOPTS, NOPTS;
      NoTimes(s, k);
      while next != null
        invariant k <= j <= |nodes| && next == NodeAt(nodes, j)
        invariant j == k || NextKeyframe(s, j) == RunEnd(s, k)
        invariant kfMin == MinTime(s, k, j) && kfMax == MaxTime(s, k, j)
        decreases |nodes| - j
      {
        var p := next.packet;
        if p.keyframe && next != pkt {
          break;
        }
        assert s[j] == p && (j > k ==> next != pkt);
        TimesStep(s, k, j);
        var ts := PtsOrDef(p.pts, p.dts);
        if p.segmented && ((p.start != NOPTS && ts < p.start) || (p.end != NOPTS && ts > p.end)) {
          ts := NOPTS;
        }
        kfMin := PtsMin(kfMin, ts);
        kfMax := PtsMax(kfMax, ts);
        next := next.next;
        j := j + 1;
      }
      TimesEnd(s, k, j);
    }

    // The loop of find_seek_target(), from the i-th node on.
    method ScanFrom(start: Node?, ghost i0: nat, at: real, forward: bool) returns (target: Node?)
      requires Linked(nodes, head, tail) && i0 <= |nodes| && start == NodeAt(nodes, i0)
      ensures TargetIs(target, Scan(PacketsOf(nodes), i0, at, forward, None))
    {
      hide RunMin;
      ghost var s, i := PacketsOf(nodes), i0;
      ghost var t: Option<nat> := None;
      var dp := start;
      target := null;
      while dp != null
        invariant i <= |nodes| && dp == NodeAt(nodes, i)
        invariant TargetIs(target, t)
        invariant Scan(s, i, at, forward, t) == Scan(s, i0, at, forward, None)
        decreases |nodes| - i
      {
        assert dp.packet == s[i];
        if dp.packet.keyframe {
          var next, rangePts, rangeEnd := ComputeKeyframeTimes(dp, i);
          if rangePts != NOPTS {
            // Forward, the first run that is late enough is it. Backward, every run
            // that is early enough is better than the one before, and the first one
            // is better than nothing.
            if target != null && (forward || rangePts > at) {
              return;
            }
            if !(forward && rangePts < at) {
              target, t := dp, Some(i);
            }
          }
          dp, i := next, RunEnd(s, i);
        } else {
          assert dp.next == NodeAt(nodes, i + 1);
          dp, i := dp.next, i + 1;
        }
      }
    }

    ghost predicate TargetIs(target: Node?, t: Option<nat>)
      reads this
    {
      if t.None? then target == null else t.value < |nodes| && target == nodes[t.value]
    }

    // find_seek_target()
    method FindSeekTarget(preroll: real, pts: real, forward: bool, ghost q: Queue) returns (target: Node?)
      requires Valid() && Represents(q)
      ensures TargetIs(target, SeekTarget.FindSeekTarget(q.pkts, q.base, q.index, preroll, pts, forward))
    {
      hide Linked, EntriesAre, Unrolled, IsPow2, Spaced, Scan, ScanStart, LastAtMost, PacketsOf, CumsOf, PtrIs;
      LinkedDistinct(nodes, head, tail);
      StartOfScan(nodes, base, ring.Entries(), q.index, pts - preroll);
      var hit := ring.Search(pts - preroll);
      var start := if hit.Some? then hit.value else head;
      target := ScanFrom(start, ScanStart(q.pkts, q.base, q.index, pts - preroll), pts - preroll, forward);
    }

    // --- Clearing and joining ---

    // The list and index part of clear_queue(). Returns the bytes this removes.
    method Clear(ghost q: Queue) returns (bytes: int)
      requires Valid() && Represents(q)
      modifies this, ring
      ensures Valid() && fresh(ring.index) && nodes == [] && base == old(base) + |old(nodes)|
      ensures ListIs(Queues.Clear(q)) && PointersAre(Queues.Clear(q)) && IndexIs(Queues.Clear(q))
      ensures bytes == QueueBytes(q)
    {
      bytes := if head != null then tailCumPos - head.cumPos else 0;
      var indexBytes := ring.Free();
      bytes := bytes + indexBytes;
      nodes, base := [], base + |nodes|;
      head, tail, keyframeFirst, keyframeLatest := null, null, null, null;
    }

    method StoreCum(p: Node, pos: nat, ghost more: seq<Node>, ghost k: nat)
      requires Nexts(more) && Distinct(more) && k < |more| && p == more[k]
      modifies p
      ensures Nexts(more) && CumsOf(more) == old(CumsOf(more))[k := pos]
    {
      p.cumPos := pos;
    }

    // Makes the cum_pos values from dp on continuous with the end of this queue.
    // Up to now they were those of a queue with the given end.
    method Recount(dp: Node?, ghost more: seq<Node>, endPos: nat)
      requires Linked(more, dp, LastOf(more)) && Increasing(CumsOf(more), endPos)
      modifies this`tailCumPos, more
      ensures CumsOf(more) == Recounted(old(CumsOf(more)), old(tailCumPos))
      ensures tailCumPos == old(tailCumPos) + (if |more| > 0 then endPos - old(CumsOf(more))[0] else 0)
      ensures Nexts(more)
    {
      ghost var cums, start, k := CumsOf(more), tailCumPos, 0;
      RecountedEnds(cums, start, endPos);
      NextIs(more, 0);
      hide Distinct, CumsOf, Recounted, RecountedUpTo, PositionAfter, Increasing, Nexts;
      var p := dp;
      while p != null
        invariant k <= |more| && p == NodeAt(more, k) && Nexts(more)
        invariant CumsOf(more) == RecountedUpTo(cums, start, k)
        invariant tailCumPos == PositionAfter(cums, start, endPos, k)
        decreases |more| - k
      {
        NextIs(more, k);
        RecountedStep(cums, start, endPos, k);
        CumAt(more, k);
        var nextPos := if p.next != null then p.next.cumPos else endPos;
        var size := nextPos - p.cumPos;
        StoreCum(p, tailCumPos, more, k);
        tailCumPos := tailCumPos + size;
        p := p.next;
        k := k + 1;
      }
    }

    // Hangs the packets of q2 at the end of this list.
    method LinkList(q2: PacketQueue)
      requires this != q2 && Linked(nodes, head, tail) && Linked(q2.nodes, q2.head, q2.tail)
      requires Apart(nodes, q2.nodes)
      modifies this`head, this`tail, this`nodes, nodes
      ensures Linked(nodes, head, tail) && nodes == old(nodes) + q2.nodes
      ensures Linked(q2.nodes, q2.head, q2.tail)
      ensures CumsOf(old(nodes)) == old(CumsOf(nodes)) && CumsOf(q2.nodes) == old(CumsOf(q2.nodes))
    {
      ghost var was, more := nodes, q2.nodes;
      DistinctConcat(was, more);
      if q2.head != null {
        if head != null {
          SetNext(tail, q2.head, was, more);
        } else {
          head := q2.head;
        }
        tail := q2.tail;
      }
      nodes := nodes + more;
      NextsConcat(was, more);
    }

    method SetNext(p: Node, next: Node, ghost a: seq<Node>, ghost b: seq<Node>)
      requires Distinct(a) && Nexts(a) && Nexts(b) && Apart(a, b) && |a| > 0 && p == a[|a| - 1] && next == NodeAt(b, 0)
      modifies p`next
      ensures NextsTo(a, next) && Nexts(b)
      ensures CumsOf(a) == old(CumsOf(a)) && CumsOf(b) == old(CumsOf(b))
    {
      p.next := next;
    }

    // Appends the index of q2 to that of this queue. Returns the bytes this adds.
    method AddIndexOf(q2: PacketQueue) returns (bytes: int)
      requires this != q2 && ring != q2.ring && ring.index != q2.ring.index && ring.Valid() && q2.ring.Valid()
      modifies ring, ring.index
      ensures ring.Valid() && q2.ring.Valid() && (ring.index == old(ring.index) || fresh(ring.index))
      ensures q2.ring.index != ring.index && q2.ring.Entries() == old(q2.ring.Entries())
      ensures ring.Entries() == AddEntries(old(ring.Entries()), q2.ring.Entries())
      ensures ring.index.Length == SizeAfterEntries(old(ring.Entries()), old(ring.index.Length), q2.ring.Entries())
      ensures bytes == (ring.index.Length - old(ring.index.Length)) * ENTRY_BYTES
    {
      hide Unrolled, IsPow2, Spaced, AddEntry, SizeAfterAdd;
      bytes := 0;
      ghost var es, fs := ring.Entries(), q2.ring.Entries();
      assert fs[0..] == fs;
      for i := 0 to q2.ring.numIndex
        invariant ring.Valid() && q2.ring.Valid() && (ring.index == old(ring.index) || fresh(ring.index))
        invariant ring.index != q2.ring.index && q2.ring.Entries() == fs
        invariant AddEntries(ring.Entries(), fs[i..]) == AddEntries(es, fs)
        invariant SizeAfterEntries(ring.Entries(), ring.index.Length, fs[i..]) == SizeAfterEntries(es, old(ring.index.Length), fs)
        invariant bytes == (ring.index.Length - old(ring.index.Length)) * ENTRY_BYTES
      {
        var e := q2.ring.Entry(i);
        assert fs[i..][0] == e && fs[i..][1..] == fs[i + 1..];
        var added := ring.Add(e);
        bytes := bytes + added;
      }
    }

    // The list part of a join.
    method JoinLists(q2: PacketQueue, ghost v1: Queue, ghost v2: Queue)
      requires this != q2 && Linked(nodes, head, tail) && Linked(q2.nodes, q2.head, q2.tail)
      requires ListIs(v1) && q2.ListIs(v2) && CumOk(v2)
      requires Apart(nodes, q2.nodes)
      modifies this`head, this`tail, this`tailCumPos, this`nodes, nodes, q2`head, q2`tail, q2`nodes, q2.nodes
      ensures Linked(nodes, head, tail) && nodes == old(nodes) + old(q2.nodes)
      ensures q2.nodes == [] && Linked(q2.nodes, q2.head, q2.tail)
      ensures CumsOf(nodes) == v1.cum + Recounted(v2.cum, v1.tailCum)
      ensures tailCumPos == v1.tailCum + PacketBytes(v2) && PacketBytes(v2) >= 0
    {
      hide Increasing, CumOk, Recounted, PacketsOf, Linked, CumsOf, SizeSum, Apart;
      PositionsIncrease(v2);
      BytesAreSizes(v2);
      LinkedEnds(q2.nodes, q2.head, q2.tail);
      ghost var was, more := nodes, q2.nodes;
      var joinPoint, endPos := q2.head, q2.tailCumPos;
      LinkList(q2);
      q2.head, q2.tail := null, null;
      q2.nodes := [];
      RecountJoined(joinPoint, was, more, endPos);
    }

    method RecountJoined(dp: Node?, ghost was: seq<Node>, ghost more: seq<Node>, endPos: nat)
      requires Linked(nodes, head, tail) && nodes == was + more
      requires Linked(more, dp, LastOf(more)) && Increasing(CumsOf(more), endPos)
      modifies this`tailCumPos, more
      ensures Linked(nodes, head, tail)
      ensures CumsOf(nodes) == old(CumsOf(was)) + Recounted(old(CumsOf(more)), old(tailCumPos))
      ensures tailCumPos == old(tailCumPos) + (if |more| > 0 then endPos - old(CumsOf(more))[0] else 0)
    {
      hide Increasing, Recounted, NodeAt;
      SecondApart(was, more);
      Recount(dp, more, endPos);
      forall i | 0 <= i < |nodes|
        ensures nodes[i].next == NodeAt(nodes, i + 1)
        ensures i < |was| ==> nodes[i].cumPos == old(nodes[i].cumPos)
      {
        if i < |was| {
          assert nodes[i] == was[i] && old(nodes[i].next) == NodeAt(nodes, i + 1);
        } else {
          assert nodes[i] == more[i - |was|] && more[i - |was|].next == NodeAt(more, i - |was| + 1);
        }
      }
      assert CumsOf(nodes) == old(CumsOf(was)) + CumsOf(more);
    }

    // Adds the index of q2 to the one of this queue, and frees it.
    method MoveIndexOf(q2: PacketQueue) returns (bytes: int)
      requires this != q2 && ring != q2.ring && ring.index != q2.ring.index && ring.Valid() && q2.ring.Valid()
      modifies ring, ring.index, q2.ring
      ensures ring.Valid() && q2.ring.Valid() && q2.ring.Entries() == []
      ensures ring.Entries() == AddEntries(old(ring.Entries()), old(q2.ring.Entries()))
      ensures ring.index.Length == SizeAfterEntries(old(ring.Entries()), old(ring.index.Length), old(q2.ring.Entries()))
      ensures bytes == (ring.index.Length - old(ring.index.Length) - old(q2.ring.index.Length)) * ENTRY_BYTES
    {
      hide Unrolled, IsPow2, Spaced, AddEntries, SizeAfterEntries;
      bytes := AddIndexOf(q2);
      var freed := q2.ring.Free();
      bytes := bytes - freed;
    }

    // Joins q2 to this queue, and leaves q2 empty. Returns by how much the two
    // indexes together have grown.
    method JoinQueue(q2: PacketQueue, ghost v1: Queue, ghost v2: Queue) returns (bytes: int)
      requires this != q2 && ring != q2.ring && ring.index != q2.ring.index
      requires Valid() && q2.Valid() && Represents(v1) && q2.Represents(v2) && CumOk(v2)
      requires Apart(nodes, q2.nodes)
      modifies this, nodes, ring, ring.index, q2, q2.nodes, q2.ring
      ensures Valid() && q2.Valid() && q2.nodes == [] && nodes == old(nodes) + old(q2.nodes)
      ensures ListIs(Join(v1, v2)) && PointersAre(Join(v1, v2)) && IndexIs(Join(v1, v2))
      ensures bytes == (Join(v1, v2).indexSize - v1.indexSize) * ENTRY_BYTES - v2.indexSize * ENTRY_BYTES
    {
      hide Linked, PtrIs, EntriesAre, Unrolled, IsPow2, Spaced, CumOk, AddEntries, SizeAfterEntries, Renumber, Join, Apart,
        ListIs, PointersAre;
      JoinedIndexIs(v1, v2);
      ListLength(v1);
      q2.ListLength(v2);
      IndexJoined(nodes, q2.nodes, base, v2.base, ring.Entries(), q2.ring.Entries(), v1.index, v2.index, v1.indexSize);
      JoinPackets(q2, v1, v2);
      bytes := MoveIndexOf(q2);
    }

    lemma ListLength(v: Queue)
      requires ListIs(v)
      ensures |nodes| == |v.pkts| && v.base == base
    {
    }

    // The lists and pointers of both queues.
    method JoinPackets(q2: PacketQueue, ghost v1: Queue, ghost v2: Queue)
      requires this != q2 && Linked(nodes, head, tail) && Linked(q2.nodes, q2.head, q2.tail)
      requires ListIs(v1) && q2.ListIs(v2) && PointersAre(v1) && q2.PointersAre(v2) && CumOk(v2)
      requires Apart(nodes, q2.nodes)
      modifies this`head, this`tail, this`tailCumPos, this`nodes, this`keyframeLatest, nodes
      modifies q2`head, q2`tail, q2`nodes, q2`keyframeFirst, q2`keyframeLatest, q2.nodes
      ensures Linked(nodes, head, tail) && nodes == old(nodes) + old(q2.nodes)
      ensures q2.nodes == [] && Linked(q2.nodes, q2.head, q2.tail)
      ensures ListIs(Join(v1, v2)) && PointersAre(Join(v1, v2))
    {
      hide Linked, PtrIs, CumsOf, PacketsOf, CumOk, Recounted, Join, PacketBytes, Apart;
      JoinedListIs(v1, v2);
      PointersJoined(nodes, q2.nodes, base, v2.base, keyframeFirst, v1.kfFirst, q2.keyframeLatest, v2.kfLatest);
      PacketsJoined(nodes, q2.nodes);
      JoinLists(q2, v1, v2);
      keyframeLatest := q2.keyframeLatest;
      q2.keyframeFirst, q2.keyframeLatest := null, null;
    }
  }

  lemma NoTimes(s: seq<Packet>, k: nat)
    requires k <= |s|
    ensures MinTime(s, k, k) == NOPTS && MaxTime(s, k, k) == NOPTS
  {
  }

  lemma TimesStep(s: seq<Packet>, k: nat, j: nat)
    requires k <= j < |s|
    ensures MinTime(s, k, j + 1) == PtsMin(MinTime(s, k, j), TimeOf(s[j]))
    ensures MaxTime(s, k, j + 1) == PtsMax(MaxTime(s, k, j), TimeOf(s[j]))
    ensures j > k && NextKeyframe(s, j) == RunEnd(s, k) && !s[j].keyframe ==> NextKeyframe(s, j + 1) == RunEnd(s, k)
    ensures j == k ==> NextKeyframe(s, j + 1) == RunEnd(s, k)
  {
    hide PtsMin, PtsMax, TimeOf;
  }

  lemma TimesEnd(s: seq<Packet>, k: nat, j: nat)
    requires k <= j <= |s| && (j == k || NextKeyframe(s, j) == RunEnd(s, k))
    ensures j > k && (j == |s| || s[j].keyframe) ==> j == RunEnd(s, k)
  {
  }

  lemma JoinedListIs(q1: Queue, q2: Queue)
    ensures var r := Join(q1, q2);
            && r.pkts == q1.pkts + q2.pkts && r.cum == q1.cum + Recounted(q2.cum, q1.tailCum)
            && (PacketBytes(q2) >= 0 ==> r.tailCum == q1.tailCum + PacketBytes(q2))
            && r.base == q1.base && r.kfFirst == q1.kfFirst
            && r.kfLatest == (if q2.kfLatest.Some? && q2.kfLatest.value >= q2.base
                              then Some(q2.kfLatest.value - q2.base + q1.End()) else None)
  {
    hide AddEntries, SizeAfterEntries, Renumber, Recounted, PacketBytes;
  }

  lemma JoinedIndexIs(q1: Queue, q2: Queue)
    ensures var r := Join(q1, q2);
            && r.index == AddEntries(q1.index, Renumber(q2.index, q2.base, q1.End()))
            && r.indexSize == SizeAfterEntries(q1.index, q1.indexSize, Renumber(q2.index, q2.base, q1.End()))
  {
    hide AddEntries, SizeAfterEntries, Renumber, Recounted, PacketBytes;
  }

  lemma SecondApart(a: seq<Node>, b: seq<Node>)
    requires Distinct(a + b)
    ensures forall i :: 0 <= i < |a| ==> a[i] !in b
  {
    forall i, j | 0 <= i < |a| && 0 <= j < |b|
      ensures a[i] != b[j]
    {
      assert (a + b)[i] == a[i] && (a + b)[|a| + j] == b[j];
    }
  }

  // The positions when the first k packets have got their new ones.
  function RecountedUpTo(cums: seq<nat>, start: nat, k: nat): (r: seq<nat>)
    ensures |r| == |cums|
  {
    seq(|cums|, i requires 0 <= i < |cums| => if i < k then (if cums[i] >= cums[0] then cums[i] - cums[0] + start else start) else cums[i])
  }

  // The end of the queue by then.
  function PositionAfter(cums: seq<nat>, start: nat, end: nat, k: nat): int
    requires k <= |cums|
  {
    start + (if k == 0 then 0 else (if k < |cums| then cums[k] else end) - cums[0])
  }

  lemma RecountedEnds(cums: seq<nat>, start: nat, end: nat)
    ensures RecountedUpTo(cums, start, 0) == cums
    ensures RecountedUpTo(cums, start, |cums|) == Recounted(cums, start)
  {
  }

  lemma RecountedStep(cums: seq<nat>, start: nat, end: nat, k: nat)
    requires Increasing(cums, end) && k < |cums|
    ensures var r := RecountedUpTo(cums, start, k);
            && r[k] == cums[k] && (k + 1 < |cums| ==> r[k + 1] == cums[k + 1])
            && PositionAfter(cums, start, end, k) >= 0
            && (if k + 1 < |cums| then cums[k + 1] else end) >= cums[k]
            && RecountedUpTo(cums, start, k + 1) == r[k := PositionAfter(cums, start, end, k)]
            && PositionAfter(cums, start, end, k + 1)
               == PositionAfter(cums, start, end, k) + (if k + 1 < |cums| then cums[k + 1] else end) - cums[k]
  {
  }

  lemma NextIs(nodes: seq<Node>, k: nat)
    requires Nexts(nodes)
    ensures k < |nodes| ==> nodes[k].next == NodeAt(nodes, k + 1)
  {
  }

  lemma CumAt(nodes: seq<Node>, k: nat)
    requires k < |nodes|
    ensures CumsOf(nodes)[k] == nodes[k].cumPos
    ensures k + 1 < |nodes| ==> CumsOf(nodes)[k + 1] == nodes[k + 1].cumPos
  {
  }

  lemma DistinctConcat(a: seq<Node>, b: seq<Node>)
    requires Distinct(a) && Distinct(b) && Apart(a, b)
    ensures Distinct(a + b)
  {
  }

  lemma NextsConcat(a: seq<Node>, b: seq<Node>)
    requires NextsTo(a, NodeAt(b, 0)) && Nexts(b)
    ensures Nexts(a + b)
  {
    var t := a + b;
    forall i | 0 <= i < |t|
      ensures t[i].next == NodeAt(t, i + 1)
    {
      if i < |a| {
        assert a[i].next == if i + 1 < |a| then NodeAt(a, i + 1) else NodeAt(b, 0);
      } else {
        assert b[i - |a|].next == NodeAt(b, i - |a| + 1);
      }
    }
  }

  lemma PacketsJoined(a: seq<Node>, b: seq<Node>)
    ensures PacketsOf(a + b) == PacketsOf(a) + PacketsOf(b)
  {
  }

  lemma PointersJoined(a: seq<Node>, b: seq<Node>, base: nat, base2: nat, first: Node?, kf: Option<nat>,
                       latest: Node?, kf2: Option<nat>)
    requires PtrIs(a, base, first, kf) && PtrIs(b, base2, latest, kf2)
    ensures PtrIs(a + b, base, first, kf)
    ensures PtrIs(a + b, base, latest, if kf2.Some? && kf2.value >= base2 then Some(kf2.value - base2 + base + |a|) else None)
  {
  }

  // The entries added from the second index stand for the renumbered ones.
  lemma EntriesJoined(a: seq<Node>, b: seq<Node>, base: nat, base2: nat,
                      es: seq<IndexEntry<Node>>, es2: seq<IndexEntry<Node>>,
                      fs: seq<IndexEntry<nat>>, fs2: seq<IndexEntry<nat>>)
    requires EntriesAre(a, base, es, fs) && EntriesAre(b, base2, es2, fs2)
    ensures EntriesAre(a + b, base, es2, Renumber(fs2, base2, base + |a|))
    ensures EntriesAre(a + b, base, AddEntries(es, es2), AddEntries(fs, Renumber(fs2, base2, base + |a|)))
  {
    var gs := Renumber(fs2, base2, base + |a|);
    EntriesExtended(a, b, base, es, fs);
    forall i | 0 <= i < |es2|
      ensures EntryIs(a + b, base, es2[i], gs[i])
    {
      assert EntryIs(b, base2, es2[i], fs2[i]);
    }
    EntriesAdded(a + b, base, es, es2, fs, gs);
  }

  lemma AddedEntry(nodes: seq<Node>, base: nat, es: seq<IndexEntry<Node>>, fs: seq<IndexEntry<nat>>,
                   e: IndexEntry<Node>, f: IndexEntry<nat>, size: nat)
    requires EntriesAre(nodes, base, es, fs) && EntryIs(nodes, base, e, f)
    ensures EntriesAre(nodes, base, AddEntry(es, e), AddEntry(fs, f))
    ensures SizeAfterAdd(es, size, e) == SizeAfterAdd(fs, size, f)
  {
    assert |es| > 0 ==> EntryIs(nodes, base, es[|es| - 1], fs[|es| - 1]);
  }

  lemma {:induction false} EntriesAdded(nodes: seq<Node>, base: nat, es: seq<IndexEntry<Node>>, es2: seq<IndexEntry<Node>>,
                                        fs: seq<IndexEntry<nat>>, fs2: seq<IndexEntry<nat>>)
    requires EntriesAre(nodes, base, es, fs) && EntriesAre(nodes, base, es2, fs2)
    ensures EntriesAre(nodes, base, AddEntries(es, es2), AddEntries(fs, fs2))
    decreases |es2|
  {
    if |es2| > 0 {
      assert EntryIs(nodes, base, es2[0], fs2[0]);
      AddedEntry(nodes, base, es, fs, es2[0], fs2[0], 0);
      RestAre(nodes, base, es2, fs2);
      hide EntriesAre, AddEntry;
      EntriesAdded(nodes, base, AddEntry(es, es2[0]), es2[1..], AddEntry(fs, fs2[0]), fs2[1..]);
    }
  }

  lemma RestAre(nodes: seq<Node>, base: nat, es: seq<IndexEntry<Node>>, fs: seq<IndexEntry<nat>>)
    requires EntriesAre(nodes, base, es, fs) && |es| > 0
    ensures EntriesAre(nodes, base, es[1..], fs[1..])
  {
  }

  // The index of a joined queue.
  lemma IndexJoined(a: seq<Node>, b: seq<Node>, base: nat, base2: nat,
                    es: seq<IndexEntry<Node>>, es2: seq<IndexEntry<Node>>,
                    fs: seq<IndexEntry<nat>>, fs2: seq<IndexEntry<nat>>, size: nat)
    requires EntriesAre(a, base, es, fs) && EntriesAre(b, base2, es2, fs2)
    ensures var gs := Renumber(fs2, base2, base + |a|);
            && EntriesAre(a + b, base, AddEntries(es, es2), AddEntries(fs, gs))
            && SizeAfterEntries(es, size, es2) == SizeAfterEntries(fs, size, gs)
  {
    hide EntriesAre, AddEntries, SizeAfterEntries, Renumber;
    EntriesJoined(a, b, base, base2, es, es2, fs, fs2);
    EntriesExtended(a, b, base, es, fs);
    SizesAdded(a + b, base, es, es2, fs, Renumber(fs2, base2, base + |a|), size);
  }

  lemma {:induction false} SizesAdded(nodes: seq<Node>, base: nat, es: seq<IndexEntry<Node>>, es2: seq<IndexEntry<Node>>,
                                      fs: seq<IndexEntry<nat>>, fs2: seq<IndexEntry<nat>>, size: nat)
    requires EntriesAre(nodes, base, es, fs) && EntriesAre(nodes, base, es2, fs2)
    ensures SizeAfterEntries(es, size, es2) == SizeAfterEntries(fs, size, fs2)
    decreases |es2|
  {
    if |es2| > 0 {
      assert EntryIs(nodes, base, es2[0], fs2[0]);
      AddedEntry(nodes, base, es, fs, es2[0], fs2[0], size);
      RestAre(nodes, base, es2, fs2);
      hide EntriesAre, AddEntry;
      SizesAdded(nodes, base, AddEntry(es, es2[0]), es2[1..], AddEntry(fs, fs2[0]), fs2[1..], SizeAfterAdd(es, size, es2[0]));
    }
  }

  lemma PositionsIncrease(q: Queue)
    requires CumOk(q)
    ensures Increasing(q.cum, q.tailCum)
  {
    forall i, j | 0 <= i <= j < |q.cum|
      ensures q.cum[i] <= q.cum[j] <= q.tailCum
    {
      CumIsSum(q, i);
      CumIsSum(q, j);
      SizeSumSplit(q.pkts[i..], j - i);
      assert q.pkts[i..][j - i..] == q.pkts[j..];
    }
  }

  // Positions do not decrease along the list.
  ghost predicate Increasing(cums: seq<nat>, end: nat) {
    && (forall i, j :: 0 <= i < j < |cums| ==> cums[i] <= cums[j])
    && (forall i :: 0 <= i < |cums| ==> cums[i] <= end)
  }

  // The same entry is found in the index and in what it stands for.
  lemma StartOfScan(nodes: seq<Node>, base: nat, es: seq<IndexEntry<Node>>, fs: seq<IndexEntry<nat>>, pts: real)
    requires EntriesAre(nodes, base, es, fs)
    ensures var k, i := LastAtMost(es, pts), ScanStart(PacketsOf(nodes), base, fs, pts);
            i <= |nodes| && NodeAt(nodes, i) == if k >= 0 then es[k].pkt else NodeAt(nodes, 0)
  {
    SameLastAtMost(es, fs, pts, nodes, base);
    var k := LastAtMost(es, pts);
    if k >= 0 {
      assert EntryIs(nodes, base, es[k], fs[k]);
    }
  }

  lemma {:induction false} SameLastAtMost(es: seq<IndexEntry<Node>>, fs: seq<IndexEntry<nat>>, pts: real, nodes: seq<Node>, base: nat)
    requires EntriesAre(nodes, base, es, fs)
    ensures LastAtMost(es, pts) == LastAtMost(fs, pts)
    decreases |es|
  {
    if |es| > 0 {
      var last := |es| - 1;
      assert EntryIs(nodes, base, es[last], fs[last]);
      SameLastAtMost(es[..last], fs[..last], pts, nodes, base);
    }
  }
}