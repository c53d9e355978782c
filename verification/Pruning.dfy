// Keeping the cache within its memory budget.

module Pruning {
  import opened Timestamps
  import opened Wrappers
  import opened Packets
  import opened RingIndex
  import opened SeekTarget
  import opened Queues
  import opened Ranges
  import opened Cache
  import opened CacheInvariants

  // --- The budget ---

  // Bytes of the packets from the readers' positions on.
  function ForwardTotal(qs: seq<Queue>, ss: seq<Stream>, n: nat): int
    requires n <= |qs| == |ss|
  {
    if n == 0 then 0 else ForwardTotal(qs, ss, n - 1) + ForwardBytes(qs[n - 1], ss[n - 1].readerHead)
  }

  function Forward(c: State): int
    requires c.Shape()
  {
    ForwardTotal(c.ranges[c.Last()].queues, c.streams, |c.streams|)
  }

  // The backward cache can use what the forward cache does not need, less 1.
  function MaxAvailable(opts: Options, forward: int): int {
    if opts.maxBytesBw > 0 && opts.maxBytes > forward + 1 && opts.donateFw
    then opts.maxBytesBw + (opts.maxBytes - (forward + 1))
    else opts.maxBytesBw
  }

  predicate WithinBudget(c: State)
    requires c.Shape()
  {
    TotalBytes(c.ranges) - Forward(c) <= MaxAvailable(c.opts, Forward(c))
  }

  // --- What to prune ---

  // The reader's position in the queue of a range, if that is the current one.
  function ReaderIn(c: State, r: nat, n: nat): Option<nat>
    requires n < |c.streams|
  {
    if r == c.Last() then c.streams[n].readerHead else None
  }

  predicate Prunable(q: Queue, reader: Option<nat>) {
    |q.pkts| > 0 && reader != Some(q.base)
  }

  // A queue with nothing to retain, or with packets before the first keyframe.
  predicate PruneAlways(q: Queue, seekable: bool) {
    |q.pkts| > 0 && (!seekable || q.seekStart == NOPTS || !q.pkts[0].keyframe)
  }

  // The stream with the earliest prunable packet.
  function Earliest(c: State, n: nat, best: Option<nat>): Option<nat>
    requires c.Shape() && n <= |c.cfg|
    requires best.Some? ==> best.value < |c.cfg|
    decreases |c.cfg| - n
  {
    if n == |c.cfg| then best
    else
      var qs := c.ranges[0].queues;
      if !Prunable(qs[n], ReaderIn(c, 0, n)) then Earliest(c, n + 1, best)
      else if PruneAlways(qs[n], c.opts.seekableCache) then Some(n)
      else if best.None? || qs[n].seekStart < qs[best.value].seekStart then Earliest(c, n + 1, Some(n))
      else Earliest(c, n + 1, best)
  }

  // Which stream is to be pruned. If there is a queue that has nothing to retain, or
  // packets before its first keyframe, it is such a one. Otherwise it is the one that
  // starts earliest.
  ghost predicate GoesFirst(qs: seq<Queue>, readers: seq<Option<nat>>, seekable: bool, e: nat, n: nat)
    requires |qs| == |readers| && e < |qs| && n <= |qs|
  {
    && |qs[e].pkts| > 0 && readers[e] != Some(qs[e].base)
    && forall m :: 0 <= m < n && |qs[m].pkts| > 0 && readers[m] != Some(qs[m].base) ==>
         if !seekable || qs[m].seekStart == NOPTS || !qs[m].pkts[0].keyframe
         then !seekable || qs[e].seekStart == NOPTS || !qs[e].pkts[0].keyframe
         else !seekable || qs[e].seekStart == NOPTS || !qs[e].pkts[0].keyframe || qs[e].seekStart <= qs[m].seekStart
  }

  function ReadersIn(c: State, r: nat): (s: seq<Option<nat>>)
    ensures |s| == |c.streams| && forall n :: 0 <= n < |s| ==> s[n] == if r == c.Last() then c.streams[n].readerHead else None
  {
    seq(|c.streams|, n requires 0 <= n < |c.streams| => if r == c.Last() then c.streams[n].readerHead else None)
  }

  lemma {:induction false} EarliestFrom(c: State, n: nat, best: Option<nat>)
    requires c.Shape() && n <= |c.cfg|
    requires best.Some? ==> best.value < |c.cfg|
                            && GoesFirst(c.ranges[0].queues, ReadersIn(c, 0), c.opts.seekableCache, best.value, n)
    requires best.Some? ==> !PruneAlways(c.ranges[0].queues[best.value], c.opts.seekableCache)
    requires best.None? ==> forall m :: 0 <= m < n ==> !Prunable(c.ranges[0].queues[m], ReaderIn(c, 0, m))
    ensures var e := Earliest(c, n, best);
            if e.None? then forall m :: 0 <= m < |c.cfg| ==> !Prunable(c.ranges[0].queues[m], ReaderIn(c, 0, m))
            else e.value < |c.cfg| && GoesFirst(c.ranges[0].queues, ReadersIn(c, 0), c.opts.seekableCache, e.value, |c.cfg|)
    decreases |c.cfg| - n
  {
    if n < |c.cfg| {
      var qs := c.ranges[0].queues;
      if Prunable(qs[n], ReaderIn(c, 0, n)) && PruneAlways(qs[n], c.opts.seekableCache) {
      } else if Prunable(qs[n], ReaderIn(c, 0, n)) && (best.None? || qs[n].seekStart < qs[best.value].seekStart) {
        EarliestFrom(c, n + 1, Some(n));
      } else {
        EarliestFrom(c, n + 1, best);
      }
    }
  }

  // The choice of the stream to prune.
  lemma EarliestGoesFirst(c: State)
    requires c.Shape()
    ensures var e, qs := Earliest(c, 0, None), c.ranges[0].queues;
            if e.None? then forall m :: 0 <= m < |c.cfg| ==> |qs[m].pkts| == 0 || ReadersIn(c, 0)[m] == Some(qs[m].base)
            else e.value < |c.cfg| && GoesFirst(qs, ReadersIn(c, 0), c.opts.seekableCache, e.value, |c.cfg|)
  {
    EarliestFrom(c, 0, None);
  }

  datatype Pruned = Pruned(q: Queue, kfPruned: bool)

  // Removes one keyframe run, or the packets before the first keyframe. Without a
  // seekable cache, everything up to the reader goes.
  function PruneRun(q: Queue, reader: Option<nat>, seekable: bool, nonKf: bool, kfPruned: bool): Pruned
    requires |q.cum| == |q.pkts|
    decreases |q.pkts|
  {
    if !Prunable(q, reader) then Pruned(q, kfPruned)
    else if q.pkts[0].keyframe then
      if (kfPruned || nonKf) && seekable then Pruned(q, kfPruned)
      else PruneRun(RemoveHead(q), reader, seekable, nonKf, true)
    else PruneRun(RemoveHead(q), reader, seekable, nonKf, kfPruned)
  }

  // The new start of the queue, when keyframes were pruned.
  function Restart(q: Queue, preroll: real): Queue {
    var k := NextKeyframe(q.pkts, 0);
    var kfMin := if k < |q.pkts| then RunMin(q.pkts, k) else NOPTS;
    q.(kfFirst := if k < |q.pkts| then Some(q.base + k) else None,
       lastPruned := if q.seekStart != NOPTS then q.seekStart else q.lastPruned,
       seekStart := if kfMin == NOPTS then NOPTS else kfMin + preroll)
  }

  function PruneQueue(q: Queue, reader: Option<nat>, seekable: bool, preroll: real): Pruned
    requires |q.cum| == |q.pkts|
  {
    var p := PruneRun(q, reader, seekable, |q.pkts| > 0 && !q.pkts[0].keyframe, false);
    if p.kfPruned then Pruned(Restart(p.q, preroll), true) else p
  }

  // The range's start needs no update while the queue still starts before it.
  predicate StartMoved(r: Range, q: Queue) {
    q.seekStart == NOPTS || (r.seekStart != NOPTS && q.seekStart > r.seekStart)
  }

  // One round of prune_old_packets(), on stream n of the oldest range.
  function PruneStream(c: State, n: nat): State
    requires c.Shape() && n < |c.cfg|
  {
    var r := c.ranges[0];
    var p := PruneQueue(r.queues[n], ReaderIn(c, 0, n), c.opts.seekableCache, c.cfg[n].preroll);
    var r1 := SetQueue(r, n, p.q);
    var r2 := if p.kfPruned && StartMoved(r, p.q) then UpdateSeekRanges(r1, c.cfg) else r1;
    var c1 := WithRange(c, 0, r2);
    if 0 != c.Last() && r2.seekStart == NOPTS then FreeEmptyRanges(c1) else c1
  }

  // --- Termination ---

  function PacketCount(qs: seq<Queue>): nat {
    if |qs| == 0 then 0 else PacketCount(qs[..|qs| - 1]) + |qs[|qs| - 1].pkts|
  }

  function TotalPackets(rs: seq<Range>): nat {
    if |rs| == 0 then 0 else TotalPackets(rs[..|rs| - 1]) + PacketCount(rs[|rs| - 1].queues)
  }

  lemma {:induction false} PacketCountUpdate(qs: seq<Queue>, n: nat, q: Queue)
    requires n < |qs|
    ensures PacketCount(qs[n := q]) == PacketCount(qs) - |qs[n].pkts| + |q.pkts|
    decreases |qs|
  {
    var last := |qs| - 1;
    if n == last {
      assert qs[n := q][..last] == qs[..last];
    } else {
      PacketCountUpdate(qs[..last], n, q);
      assert qs[n := q][..last] == qs[..last][n := q];
    }
  }

  lemma {:induction false} TotalPacketsUpdate(rs: seq<Range>, n: nat, r: Range)
    requires n < |rs|
    ensures TotalPackets(rs[n := r]) == TotalPackets(rs) - PacketCount(rs[n].queues) + PacketCount(r.queues)
    decreases |rs|
  {
    var last := |rs| - 1;
    if n == last {
      assert rs[n := r][..last] == rs[..last];
    } else {
      TotalPacketsUpdate(rs[..last], n, r);
      assert rs[n := r][..last] == rs[..last][n := r];
    }
  }

  lemma {:induction false} FewerPackets(s: seq<Range>, r: seq<Range>)
    requires Subsequence(s, r)
    ensures TotalPackets(s) <= TotalPackets(r)
    decreases |r|
  {
    if |r| > 0 {
      if |s| > 0 && s[|s| - 1] == r[|r| - 1] && Subsequence(s[..|s| - 1], r[..|r| - 1]) {
        FewerPackets(s[..|s| - 1], r[..|r| - 1]);
      } else {
        FewerPackets(s, r[..|r| - 1]);
      }
    }
  }

  lemma FreeEmptyFewerPackets(rs: seq<Range>, seekable: bool)
    requires |rs| > 0
    ensures TotalPackets(FreeEmpty(rs, seekable)) <= TotalPackets(rs)
  {
    EvictionOutcome(rs, seekable);
    var e := FreeEmpty(rs, seekable);
    FewerPackets(e[..|e| - 1], rs[..|rs| - 1]);
  }

  lemma {:induction false} PruneRunRemoves(q: Queue, reader: Option<nat>, seekable: bool, nonKf: bool, kfPruned: bool)
    requires |q.cum| == |q.pkts|
    ensures |PruneRun(q, reader, seekable, nonKf, kfPruned).q.pkts| <= |q.pkts|
    ensures Prunable(q, reader) && (q.pkts[0].keyframe ==> !kfPruned && !nonKf)
            ==> |PruneRun(q, reader, seekable, nonKf, kfPruned).q.pkts| < |q.pkts|
    decreases |q.pkts|
  {
    if Prunable(q, reader) {
      if q.pkts[0].keyframe {
        if !((kfPruned || nonKf) && seekable) {
          PruneRunRemoves(RemoveHead(q), reader, seekable, nonKf, true);
        }
      } else {
        PruneRunRemoves(RemoveHead(q), reader, seekable, nonKf, kfPruned);
      }
    }
  }

  lemma {:induction false} EarliestIsPrunable(c: State, n: nat, best: Option<nat>)
    requires c.Shape() && n <= |c.cfg|
    requires best.Some? ==> best.value < |c.cfg| && Prunable(c.ranges[0].queues[best.value], ReaderIn(c, 0, best.value))
    ensures var e := Earliest(c, n, best);
            && (e.Some? ==> e.value < |c.cfg| && Prunable(c.ranges[0].queues[e.value], ReaderIn(c, 0, e.value)))
            && (e.None? ==> best.None? && forall i :: n <= i < |c.cfg| ==> !Prunable(c.ranges[0].queues[i], ReaderIn(c, 0, i)))
    decreases |c.cfg| - n
  {
    if n < |c.cfg| {
      var qs := c.ranges[0].queues;
      if Prunable(qs[n], ReaderIn(c, 0, n)) && (best.None? || qs[n].seekStart < qs[best.value].seekStart) {
        EarliestIsPrunable(c, n + 1, Some(n));
      } else {
        EarliestIsPrunable(c, n + 1, best);
      }
    }
  }

  // Every round removes at least one packet.
  lemma PruneQueueShrinks(q: Queue, reader: Option<nat>, seekable: bool, preroll: real)
    requires |q.cum| == |q.pkts| && Prunable(q, reader)
    ensures |PruneQueue(q, reader, seekable, preroll).q.pkts| < |q.pkts|
  {
    hide RunMin, NextKeyframe, PruneRun;
    PruneRunRemoves(q, reader, seekable, !q.pkts[0].keyframe, false);
  }

  lemma PruneStreamShrinks(c: State, n: nat)
    requires c.Shape() && n < |c.cfg| && Prunable(c.ranges[0].queues[n], ReaderIn(c, 0, n))
    ensures TotalPackets(PruneStream(c, n).ranges) < TotalPackets(c.ranges)
  {
    hide PruneQueue, FreeEmpty, TotalPackets, PacketCount, PrunedRange, PruneStream;
    var r := c.ranges[0];
    var p := PruneQueue(r.queues[n], ReaderIn(c, 0, n), c.opts.seekableCache, c.cfg[n].preroll);
    PruneQueueShrinks(r.queues[n], ReaderIn(c, 0, n), c.opts.seekableCache, c.cfg[n].preroll);
    PruneStreamUnfolded(c, n);
    PrunedRangeQueues(r, n, p, c.cfg);
    var r' := PrunedRange(r, n, p, c.cfg);
    PacketCountUpdate(r.queues, n, p.q);
    TotalPacketsUpdate(c.ranges, 0, r');
    FreeEmptyFewerPackets(c.ranges[0 := r'], c.opts.seekableCache);
  }

  // --- One round keeps the cache in order ---

  lemma {:induction false} PruneRunOk(q: Queue, reader: Option<nat>, seekable: bool, nonKf: bool, kfPruned: bool)
    requires Consistent(q) && (kfPruned ==> q.kfFirst.None?)
    requires reader.Some? ==> q.Has(reader.value)
    ensures var p := PruneRun(q, reader, seekable, nonKf, kfPruned);
            && Consistent(p.q)
            // the assertion that the cached first keyframe was just deleted
            && (p.kfPruned ==> p.q.kfFirst.None?)
            && (reader.Some? ==> p.q.Has(reader.value))
            && p.q.seekStart == q.seekStart && p.q.lastPruned == q.lastPruned
            && Unread(p.q, reader) == Unread(q, reader)
            && ForwardBytes(p.q, reader) == ForwardBytes(q, reader)
    decreases |q.pkts|
  {
    ConsistentLengths(q);
    hide Consistent, Unread, ForwardBytes, RemoveHead;
    if Prunable(q, reader) && !(q.pkts[0].keyframe && (kfPruned || nonKf) && seekable) {
      HeadPruned(q, reader);
      PruneRunOk(RemoveHead(q), reader, seekable, nonKf, kfPruned || q.pkts[0].keyframe);
    }
  }

  lemma HeadPruned(q: Queue, reader: Option<nat>)
    requires Consistent(q) && Prunable(q, reader) && |q.cum| == |q.pkts| && (reader.Some? ==> q.Has(reader.value))
    ensures var r := RemoveHead(q);
            && Consistent(r) && (q.pkts[0].keyframe || q.kfFirst.None? ==> r.kfFirst.None?)
            && (reader.Some? ==> r.Has(reader.value))
            && r.seekStart == q.seekStart && r.lastPruned == q.lastPruned
            && Unread(r, reader) == Unread(q, reader) && ForwardBytes(r, reader) == ForwardBytes(q, reader)
            && |r.pkts| == |q.pkts| - 1
  {
    hide Consistent, Unread, ForwardBytes;
    RemoveHeadConsistent(q);
    if q.pkts[0].keyframe || q.kfFirst.None? {
      HeadWasFirst(q);
    }
    HeadWasRead(q, reader);
  }

  // If the head is a keyframe, it is the cached first keyframe, if there is one.
  lemma HeadWasFirst(q: Queue)
    requires Consistent(q) && |q.pkts| > 0 && |q.cum| == |q.pkts| && (q.pkts[0].keyframe || q.kfFirst.None?)
    ensures RemoveHead(q).kfFirst.None?
  {
    hide QIndexOk, CumOk;
    if q.pkts[0].keyframe {
      NextKeyframeUnique(q.pkts, 0, 0);
    }
  }

  lemma HeadWasRead(q: Queue, reader: Option<nat>)
    requires Prunable(q, reader) && |q.cum| == |q.pkts| && (reader.Some? ==> q.Has(reader.value))
    ensures Unread(RemoveHead(q), reader) == Unread(q, reader)
    ensures ForwardBytes(RemoveHead(q), reader) == ForwardBytes(q, reader)
  {
    if reader.Some? {
      var k := reader.value - q.base;
      assert q.pkts[1..][k - 1..] == q.pkts[k..];
    }
  }

  lemma ConsistentLengths(q: Queue)
    requires Consistent(q)
    ensures |q.cum| == |q.pkts|
  {
  }

  // As long as no keyframe is removed, the queue's start stays backed.
  lemma {:induction false} PruneRunStart(q: Queue, reader: Option<nat>, seekable: bool, nonKf: bool, preroll: real)
    requires |q.cum| == |q.pkts| && StartOk(q, preroll)
    ensures var p := PruneRun(q, reader, seekable, nonKf, false);
            !p.kfPruned ==> StartOk(p.q, preroll)
    decreases |q.pkts|
  {
    if Prunable(q, reader) {
      if !q.pkts[0].keyframe {
        RemoveNonKeyframeStart(q, preroll);
        PruneRunStart(RemoveHead(q), reader, seekable, nonKf, preroll);
      } else if !(nonKf && seekable) {
        KeyframeStaysPruned(RemoveHead(q), reader, seekable, nonKf);
      }
    }
  }

  lemma {:induction false} KeyframeStaysPruned(q: Queue, reader: Option<nat>, seekable: bool, nonKf: bool)
    requires |q.cum| == |q.pkts|
    ensures PruneRun(q, reader, seekable, nonKf, true).kfPruned
    decreases |q.pkts|
  {
    if Prunable(q, reader) && !(q.pkts[0].keyframe && seekable) {
      KeyframeStaysPruned(RemoveHead(q), reader, seekable, nonKf);
    }
  }

  lemma RestartStart(q: Queue, preroll: real)
    ensures StartOk(Restart(q, preroll), preroll)
  {
    var k := NextKeyframe(q.pkts, 0);
    if k < |q.pkts| {
      assert Candidate(q.pkts, k) <==> RunMin(q.pkts, k) != NOPTS;
    }
  }

  lemma RestartOk(q: Queue, cfg: StreamConfig)
    requires Consistent(q)
    ensures QueueOk(Restart(q, cfg.preroll), cfg)
  {
    hide RunMin, StartOk, IndexOk, AllBelow, CumOk, NextKeyframe, SizeOk;
    SameListOk(q, Restart(q, cfg.preroll), cfg.preroll);
    RestartStart(q, cfg.preroll);
  }

  lemma RestartKeeps(q: Queue, preroll: real, reader: Option<nat>)
    ensures var r := Restart(q, preroll);
            && r.pkts == q.pkts && r.base == q.base && r.isBof == q.isBof
            && ForwardBytes(r, reader) == ForwardBytes(q, reader)
  {
    hide RunMin;
  }

  // The packets the reader has not got yet.
  function Unread(q: Queue, reader: Option<nat>): seq<Packet> {
    if reader.Some? && q.Has(reader.value) then q.pkts[reader.value - q.base..] else []
  }

  lemma PruneQueueOk(q: Queue, reader: Option<nat>, seekable: bool, cfg: StreamConfig)
    requires QueueOk(q, cfg) && (reader.Some? ==> q.Has(reader.value))
    ensures |q.cum| == |q.pkts|
    ensures var p := PruneQueue(q, reader, seekable, cfg.preroll);
            && QueueOk(p.q, cfg)
            && (reader.Some? ==> p.q.Has(reader.value))
            && Unread(p.q, reader) == Unread(q, reader)
            && ForwardBytes(p.q, reader) == ForwardBytes(q, reader)
            && (!p.kfPruned ==> p.q.seekStart == q.seekStart)
  {
    hide Consistent, StartOk, PruneRun, Restart, ForwardBytes;
    ConsistentLengths(q);
    var nonKf := |q.pkts| > 0 && !q.pkts[0].keyframe;
    PruneRunOk(q, reader, seekable, nonKf, false);
    PruneRunStart(q, reader, seekable, nonKf, cfg.preroll);
    var p := PruneRun(q, reader, seekable, nonKf, false);
    if p.kfPruned {
      RestartOk(p.q, cfg);
      RestartKeeps(p.q, cfg.preroll, reader);
    }
  }

  lemma {:induction false} PruneRunIsNotBof(q: Queue, reader: Option<nat>, seekable: bool, nonKf: bool, kf: bool)
    requires |q.cum| == |q.pkts|
    ensures var p := PruneRun(q, reader, seekable, nonKf, kf);
            && p.q.seekStart == q.seekStart
            && ((p.q == q && p.kfPruned == kf) || !p.q.isBof)
    decreases |q.pkts|
  {
    if Prunable(q, reader) && !(q.pkts[0].keyframe && (kf || nonKf) && seekable) {
      PruneRunIsNotBof(RemoveHead(q), reader, seekable, nonKf, kf || q.pkts[0].keyframe);
    }
  }

  // A pruned queue is no longer at the beginning of the file.
  lemma {:induction false} PruneRunKeepsSpan(q: Queue, reader: Option<nat>, seekable: bool, nonKf: bool, kfPruned: bool)
    requires |q.cum| == |q.pkts|
    ensures var p := PruneRun(q, reader, seekable, nonKf, kfPruned).q;
            p.seekStart == q.seekStart && p.seekEnd == q.seekEnd && p.lastPruned == q.lastPruned
    decreases |q.pkts|
  {
    if Prunable(q, reader) && !(q.pkts[0].keyframe && (kfPruned || nonKf) && seekable) {
      PruneRunKeepsSpan(RemoveHead(q), reader, seekable, nonKf, kfPruned || q.pkts[0].keyframe);
    }
  }

  lemma PruneQueueKeeps(q: Queue, reader: Option<nat>, seekable: bool, preroll: real)
    requires |q.cum| == |q.pkts|
    ensures var p := PruneQueue(q, reader, seekable, preroll);
            && p.q.seekEnd == q.seekEnd
            && p.q.lastPruned == (if p.kfPruned && q.seekStart != NOPTS then q.seekStart else q.lastPruned)
            && (p.kfPruned ==> (p.q.kfFirst.Some? <==> exists i :: 0 <= i < |p.q.pkts| && p.q.pkts[i].keyframe))
  {
    hide PruneRun, RunMin;
    PruneRunKeepsSpan(q, reader, seekable, |q.pkts| > 0 && !q.pkts[0].keyframe, false);
  }

  lemma PrunedIsNotBof(q: Queue, reader: Option<nat>, seekable: bool, preroll: real)
    requires |q.cum| == |q.pkts| && Prunable(q, reader)
    ensures var p := PruneQueue(q, reader, seekable, preroll);
            !p.q.isBof && (!p.kfPruned ==> p.q.seekStart == q.seekStart)
  {
    hide PruneRun, Restart;
    var nonKf := !q.pkts[0].keyframe;
    PruneRunIsNotBof(q, reader, seekable, nonKf, false);
    PruneRunRemoves(q, reader, seekable, nonKf, false);
    var p := PruneRun(q, reader, seekable, nonKf, false);
    RestartKeeps(p.q, preroll, reader);
  }

  // --- What a round removes ---

  // Where the reader stops pruning.
  function ReaderStop(q: Queue, reader: Option<nat>): (e: nat)
    ensures e <= |q.pkts|
  {
    if reader.Some? && q.Has(reader.value) then reader.value - q.base else |q.pkts|
  }

  // The first packet that stays: the keyframe that ends the first run, or that
  // the packets without a run end with, unless the reader is there before. All
  // that is before the reader goes if the cache is not seekable.
  function PruneStop(q: Queue, reader: Option<nat>, seekable: bool): (e: nat)
    requires |q.pkts| > 0
    ensures e <= |q.pkts|
  {
    var e, k := ReaderStop(q, reader), if q.pkts[0].keyframe then RunEnd(q.pkts, 0) else NextKeyframe(q.pkts, 0);
    if seekable && k < e then k else e
  }

  // The same, once past the head of a run or of what precedes the first run.
  function RestStop(q: Queue, reader: Option<nat>, seekable: bool): (e: nat)
    ensures e <= |q.pkts|
  {
    var e, k := ReaderStop(q, reader), NextKeyframe(q.pkts, 0);
    if seekable && k < e then k else e
  }

  lemma RestStopStep(q: Queue, reader: Option<nat>, seekable: bool)
    requires |q.cum| == |q.pkts| && Prunable(q, reader) && (reader.Some? ==> q.base <= reader.value)
    ensures RestStop(q, reader, seekable) == if q.pkts[0].keyframe && seekable then 0
                                             else 1 + RestStop(RemoveHead(q), reader, seekable)
    ensures PruneStop(q, reader, seekable) == 1 + RestStop(RemoveHead(q), reader, seekable)
  {
    NextAfterHead(q.pkts);
    var r := RemoveHead(q);
    assert r.pkts == q.pkts[1..] && r.base == q.base + 1;
    assert ReaderStop(q, reader) == 1 + ReaderStop(r, reader);
  }

  lemma {:induction false} PruneRunStopsAt(q: Queue, reader: Option<nat>, seekable: bool, nonKf: bool, kf: bool)
    requires |q.cum| == |q.pkts| && (nonKf || kf)
    requires reader.Some? ==> q.base <= reader.value
    ensures var p := PruneRun(q, reader, seekable, nonKf, kf);
            p.q.pkts == q.pkts[RestStop(q, reader, seekable)..]
    decreases |q.pkts|
  {
    hide RestStop;
    if Prunable(q, reader) {
      RestStopStep(q, reader, seekable);
      if !(q.pkts[0].keyframe && seekable) {
        PruneRunStopsAt(RemoveHead(q), reader, seekable, nonKf, kf || q.pkts[0].keyframe);
        DropTwice(q.pkts, RestStop(RemoveHead(q), reader, seekable));
      }
    } else {
      NothingToStopAt(q, reader, seekable);
    }
  }

  lemma NothingToStopAt(q: Queue, reader: Option<nat>, seekable: bool)
    requires !Prunable(q, reader)
    ensures RestStop(q, reader, seekable) == 0
  {
  }

  lemma {:induction false} PruneRunKeyframes(q: Queue, reader: Option<nat>, seekable: bool, nonKf: bool, kf: bool)
    requires |q.cum| == |q.pkts| && (nonKf || kf)
    requires reader.Some? ==> q.base <= reader.value
    ensures PruneRun(q, reader, seekable, nonKf, kf).kfPruned
            == (kf || (!seekable && NextKeyframe(q.pkts, 0) < ReaderStop(q, reader)))
    decreases |q.pkts|
  {
    if Prunable(q, reader) && !(q.pkts[0].keyframe && seekable) {
      NextAfterHead(q.pkts);
      var r := RemoveHead(q);
      assert ReaderStop(q, reader) == 1 + ReaderStop(r, reader);
      PruneRunKeyframes(r, reader, seekable, nonKf, kf || q.pkts[0].keyframe);
    }
  }

  lemma NextAfterHead(s: seq<Packet>)
    requires |s| > 0
    ensures NextKeyframe(s[1..], 0) == RunEnd(s, 0) - 1
    ensures !s[0].keyframe ==> NextKeyframe(s, 0) == RunEnd(s, 0)
  {
    NextKeyframeUnique(s[1..], 0, RunEnd(s, 0) - 1);
  }

  lemma DropTwice(s: seq<Packet>, k: nat)
    requires k + 1 <= |s|
    ensures s[1..][k..] == s[k + 1..]
  {
  }

  // Whether a round prunes a keyframe: the head is one, or the cache is not
  // seekable and there is one before the reader.
  predicate PrunesKeyframe(q: Queue, reader: Option<nat>, seekable: bool)
    requires |q.pkts| > 0
  {
    q.pkts[0].keyframe || (!seekable && NextKeyframe(q.pkts, 0) < ReaderStop(q, reader))
  }

  // A round removes everything up to PruneStop.
  lemma PruneRunIs(q: Queue, reader: Option<nat>, seekable: bool)
    requires |q.cum| == |q.pkts| && Prunable(q, reader) && (reader.Some? ==> q.base <= reader.value)
    ensures var p := PruneRun(q, reader, seekable, !q.pkts[0].keyframe, false);
            && p.q.pkts == q.pkts[PruneStop(q, reader, seekable)..]
            && p.kfPruned == PrunesKeyframe(q, reader, seekable)
  {
    hide RestStop, PruneStop;
    RestStopStep(q, reader, seekable);
    var r := RemoveHead(q);
    DropTwice(q.pkts, RestStop(r, reader, seekable));
    if q.pkts[0].keyframe {
      PruneRunStopsAt(r, reader, seekable, false, true);
      PruneRunKeyframes(r, reader, seekable, false, true);
    } else {
      PruneRunStopsAt(q, reader, seekable, true, false);
      PruneRunKeyframes(q, reader, seekable, true, false);
    }
  }

  // Where a queue starts that begins at packet i: at the next run.
  function StartFrom(s: seq<Packet>, i: nat, preroll: real): real
    requires i <= |s|
  {
    var k := NextKeyframe(s, i);
    if k == |s| || RunMin(s, k) == NOPTS then NOPTS else RunMin(s, k) + preroll
  }

  lemma RestartIs(q: Queue, s: seq<Packet>, i: nat, preroll: real)
    requires i <= |s| && q.pkts == s[i..]
    ensures Restart(q, preroll).seekStart == StartFrom(s, i, preroll)
  {
    hide RunMin;
    var k := NextKeyframe(s, i);
    NextKeyframeUnique(q.pkts, 0, k - i);
    if k < |s| {
      RunAfterDrop(s, i, k);
    }
  }

  lemma PruneQueueIs(q: Queue, reader: Option<nat>, seekable: bool, preroll: real)
    requires |q.cum| == |q.pkts| && Prunable(q, reader) && (reader.Some? ==> q.base <= reader.value)
    ensures var p, stop := PruneQueue(q, reader, seekable, preroll), PruneStop(q, reader, seekable);
            && p.q.pkts == q.pkts[stop..]
            && p.kfPruned == PrunesKeyframe(q, reader, seekable)
            && p.q.seekStart == (if p.kfPruned then StartFrom(q.pkts, stop, preroll) else q.seekStart)
            && p.q.seekEnd == q.seekEnd
            && p.q.lastPruned == (if p.kfPruned && q.seekStart != NOPTS then q.seekStart else q.lastPruned)
            && !p.q.isBof
  {
    hide PruneRun, PruneStop, StartFrom, Restart, PrunesKeyframe;
    PruneQueueKeeps(q, reader, seekable, preroll);
    PruneRunIs(q, reader, seekable);
    PrunedIsNotBof(q, reader, seekable, preroll);
    var run := PruneRun(q, reader, seekable, !q.pkts[0].keyframe, false);
    RestartIs(run.q, q.pkts, PruneStop(q, reader, seekable), preroll);
    RestartKeeps(run.q, preroll, reader);
  }

  // The branch that skips update_seek_ranges() may do so.
  lemma SkippedUpdateOk(r: Range, n: nat, q: Queue, cfg: seq<StreamConfig>)
    requires RangeOk(r, cfg) && n < |cfg| && QueueOk(q, cfg[n]) && !StartMoved(r, q)
    ensures RangeOk(SetQueue(r, n, q), cfg)
  {
    hide QueueOk;
    var r' := SetQueue(r, n, q);
    if r.seekStart != NOPTS {
      var i :| 0 <= i < |cfg| && Counts(cfg[i]) && r.queues[i].seekStart != NOPTS;
      assert Counts(cfg[i]) && r'.queues[i].seekStart != NOPTS;
    }
  }

  // The range stream n of which was pruned.
  function PrunedRange(r: Range, n: nat, p: Pruned, cfg: seq<StreamConfig>): Range
    requires n < |r.queues| == |cfg|
  {
    var r1 := SetQueue(r, n, p.q);
    if p.kfPruned && StartMoved(r, p.q) then UpdateSeekRanges(r1, cfg) else r1
  }

  lemma PrunedRangeQueues(r: Range, n: nat, p: Pruned, cfg: seq<StreamConfig>)
    requires n < |r.queues| == |cfg|
    ensures PrunedRange(r, n, p, cfg).queues == r.queues[n := p.q]
  {
  }

  lemma PrunedRangeOk(r: Range, n: nat, p: Pruned, cfg: seq<StreamConfig>)
    requires RangeOk(r, cfg) && n < |cfg| && QueueOk(p.q, cfg[n])
    requires !p.kfPruned ==> p.q.seekStart == r.queues[n].seekStart
    ensures RangeOk(PrunedRange(r, n, p, cfg), cfg)
  {
    hide QueueOk;
    if !p.kfPruned {
      SameStartOk(r, n, p.q, cfg);
    } else if StartMoved(r, p.q) {
      SetQueueOk(r, n, p.q, cfg);
    } else {
      SkippedUpdateOk(r, n, p.q, cfg);
    }
  }

  lemma {:induction false} ForwardTotalSame(qs: seq<Queue>, ss: seq<Stream>, n: nat, k: nat, q: Queue)
    requires n <= |qs| == |ss| && k < |qs|
    requires ForwardBytes(q, ss[k].readerHead) == ForwardBytes(qs[k], ss[k].readerHead)
    ensures ForwardTotal(qs[k := q], ss, n) == ForwardTotal(qs, ss, n)
  {
    if n > 0 {
      ForwardTotalSame(qs, ss, n - 1, k, q);
    }
  }

  // What a reader of the current range sees of a queue after a round.
  lemma PrunedReadersOk(c: State, n: nat, q: Queue)
    requires CacheOk(c) && c.Shape() && n < |c.cfg| && |c.ranges[0].queues| == |c.cfg|
    requires ReaderIn(c, 0, n).Some? ==> q.Has(ReaderIn(c, 0, n).value)
    ensures 0 == c.Last() ==> ReadersOk(c.ranges[0].queues[n := q], c.streams)
  {
    hide RangeOk;
    if 0 == c.Last() {
      forall i | 0 <= i < |c.streams|
        ensures ReaderOk(c.ranges[0].queues[n := q][i], c.streams[i])
      {
        assert ReaderOk(c.ranges[0].queues[i], c.streams[i]);
      }
    }
  }

  ghost predicate SameUnread(c: State, c': State) {
    && c.Shape() && c'.Shape() && c'.streams == c.streams && c'.cfg == c.cfg
    && Forward(c') == Forward(c)
    && forall i :: 0 <= i < |c.streams| ==>
         Unread(c'.ranges[c'.Last()].queues[i], c.streams[i].readerHead)
         == Unread(c.ranges[c.Last()].queues[i], c.streams[i].readerHead)
  }

  // Replacing the oldest range by its pruned version.
  lemma PrunedRangesOk(c: State, n: nat, p: Pruned)
    requires CacheOk(c) && c.Shape() && n < |c.cfg|
    requires ReaderIn(c, 0, n).Some? ==> p.q.Has(ReaderIn(c, 0, n).value)
    requires RangeOk(PrunedRange(c.ranges[0], n, p, c.cfg), c.cfg)
    ensures var c1 := WithRange(c, 0, PrunedRange(c.ranges[0], n, p, c.cfg));
            && RangesOk(c1.ranges, c.cfg)
            && ReadersOk(c1.ranges[|c1.ranges| - 1].queues, c1.streams)
            && (0 < |c1.ranges| - 1 && c1.ranges[0].seekStart != NOPTS ==> CacheOk(c1))
            && (0 == |c1.ranges| - 1 ==> CacheOk(c1))
  {
    hide RangeOk, PrunedRange, ReadersOk;
    PrunedRangeQueues(c.ranges[0], n, p, c.cfg);
    PrunedReadersOk(c, n, p.q);
    SetRangeOk(c.ranges, 0, PrunedRange(c.ranges[0], n, p, c.cfg), c.cfg);
  }

  lemma PruneStreamUnfolded(c: State, n: nat)
    requires c.Shape() && n < |c.cfg|
    ensures var p := PruneQueue(c.ranges[0].queues[n], ReaderIn(c, 0, n), c.opts.seekableCache, c.cfg[n].preroll);
            var c1 := WithRange(c, 0, PrunedRange(c.ranges[0], n, p, c.cfg));
            PruneStream(c, n) == if 0 != c.Last() && c1.ranges[0].seekStart == NOPTS then FreeEmptyRanges(c1) else c1
  {
    hide PruneQueue, UpdateSeekRanges;
  }

  // A round of pruning leaves the readers and everything before them alone.
  lemma PruneStreamOk(c: State, n: nat)
    requires CacheOk(c) && c.Shape() && n < |c.cfg|
    ensures CacheOk(PruneStream(c, n)) && SameUnread(c, PruneStream(c, n))
  {
    hide QueueOk, PrunedRange, PruneQueue, PruneStream, ForwardBytes, Backed, RangesOk, OthersSeekable;
    var r, reader := c.ranges[0], ReaderIn(c, 0, n);
    OkHasShape(c);
    assert ReaderOk(c.ranges[c.Last()].queues[n], c.streams[n]);
    PruneQueueOk(r.queues[n], reader, c.opts.seekableCache, c.cfg[n]);
    var p := PruneQueue(r.queues[n], reader, c.opts.seekableCache, c.cfg[n].preroll);
    PruneStreamUnfolded(c, n);
    PrunedOldestOk(c, n, p);
    PrunedRangesOk(c, n, p);
    PrunedRangeQueues(r, n, p, c.cfg);
    var c1 := WithRange(c, 0, PrunedRange(r, n, p, c.cfg));
    FreeEmptyRangesOk(c1);
    OkHasShape(PruneStream(c, n));
    PrunedUnread(c, n, p.q, PruneStream(c, n));
  }

  lemma PrunedOldestOk(c: State, n: nat, p: Pruned)
    requires CacheOk(c) && c.Shape() && n < |c.cfg| && QueueOk(p.q, c.cfg[n])
    requires !p.kfPruned ==> p.q.seekStart == c.ranges[0].queues[n].seekStart
    ensures RangeOk(PrunedRange(c.ranges[0], n, p, c.cfg), c.cfg)
  {
    hide QueueOk, PrunedRange, Backed;
    var r := c.ranges[0];
    assert RangeOk(r, c.cfg);
    PrunedRangeOk(r, n, p, c.cfg);
  }

  lemma PrunedUnread(c: State, n: nat, q: Queue, c': State)
    requires c.Shape() && c'.Shape() && c'.streams == c.streams && c'.cfg == c.cfg && n < |c.cfg|
    requires c'.ranges[c'.Last()].queues
             == if 0 == c.Last() then c.ranges[0].queues[n := q] else c.ranges[c.Last()].queues
    requires ForwardBytes(q, ReaderIn(c, 0, n)) == ForwardBytes(c.ranges[0].queues[n], ReaderIn(c, 0, n))
    requires Unread(q, ReaderIn(c, 0, n)) == Unread(c.ranges[0].queues[n], ReaderIn(c, 0, n))
    ensures SameUnread(c, c')
  {
    hide ForwardBytes, Unread;
    if 0 == c.Last() {
      ForwardTotalSame(c.ranges[0].queues, c.streams, |c.streams|, n, q);
    }
  }

  // --- Pruning until it fits ---

  // prune_old_packets()
  function Prune(c: State): State
    requires CacheOk(c) && c.Shape()
    decreases TotalPackets(c.ranges)
  {
    if WithinBudget(c) then c
    else
      var n := Earliest(c, 0, None);
      EarliestIsPrunable(c, 0, None);
      if n.None? then c
      else
        PruneStreamOk(c, n.value);
        PruneStreamShrinks(c, n.value);
        Prune(PruneStream(c, n.value))
  }

  // Nothing lies before the readers.
  ghost predicate NothingPrunable(c: State)
    requires c.Shape()
  {
    forall n :: 0 <= n < |c.cfg| ==> !Prunable(c.ranges[0].queues[n], ReaderIn(c, 0, n))
  }

  // A range other than the current one always has something to prune.
  lemma OthersPrunable(c: State)
    requires CacheOk(c) && c.Shape() && |c.ranges| > 1
    ensures !NothingPrunable(c)
  {
    hide Consistent;
    var r := c.ranges[0];
    assert RangeOk(r, c.cfg) && r.seekStart != NOPTS;
    var n :| 0 <= n < |c.cfg| && Counts(c.cfg[n]) && r.queues[n].seekStart != NOPTS;
    assert QueueOk(r.queues[n], c.cfg[n]);
    assert Prunable(r.queues[n], ReaderIn(c, 0, n));
  }

  // Pruning keeps the cache in order, the readers' positions and all unread
  // packets. It ends within the budget, or with only the current range left and
  // nothing before the readers.
  lemma {:induction false} PruneOutcome(c: State)
    requires CacheOk(c) && c.Shape()
    ensures var p := Prune(c);
            && CacheOk(p) && SameUnread(c, p)
            && (WithinBudget(p) || (|p.ranges| == 1 && NothingPrunable(p)))
    decreases TotalPackets(c.ranges)
  {
    hide CacheOk, Earliest, PruneStream, WithinBudget, Forward, Unread;
    if !WithinBudget(c) {
      var n := Earliest(c, 0, None);
      EarliestIsPrunable(c, 0, None);
      if n.Some? {
        PruneStreamOk(c, n.value);
        PruneStreamShrinks(c, n.value);
        PruneOutcome(PruneStream(c, n.value));
      } else if |c.ranges| > 1 {
        OthersPrunable(c);
      }
    }
  }

  // Over all rounds: as long as the cache is seekable, no keyframe run is removed
  // while there is something that has to be pruned anyway, or another prunable queue
  // of the range starts earlier.
  ghost predicate RoundInOrder(c: State, n: nat)
    requires c.Shape() && n < |c.cfg| && |c.ranges[0].queues[n].pkts| > 0
  {
    var qs, readers := c.ranges[0].queues, ReadersIn(c, 0);
    c.opts.seekableCache && qs[n].seekStart != NOPTS && qs[n].pkts[0].keyframe ==>
      forall m :: 0 <= m < |c.cfg| && |qs[m].pkts| > 0 && readers[m] != Some(qs[m].base) ==>
        qs[m].seekStart != NOPTS && qs[m].pkts[0].keyframe && qs[n].seekStart <= qs[m].seekStart
  }

  // Some order of rounds leads from c to d.
  ghost predicate PrunedTo(c: State, d: State)
    requires CacheOk(c) && c.Shape()
    decreases TotalPackets(c.ranges)
  {
    c == d || exists n: nat :: n < |c.cfg| && Prunable(c.ranges[0].queues[n], ReaderIn(c, 0, n)) && RoundInOrder(c, n)
                && TotalPackets(PruneStream(c, n).ranges) < TotalPackets(c.ranges)
                && CacheOk(PruneStream(c, n)) && PruneStream(c, n).Shape() && PrunedTo(PruneStream(c, n), d)
  }

  lemma {:induction false} PrunesInOrder(c: State)
    requires CacheOk(c) && c.Shape()
    ensures PrunedTo(c, Prune(c))
    decreases TotalPackets(c.ranges)
  {
    hide CacheOk, Earliest, PruneStream, WithinBudget, RoundInOrder, GoesFirst;
    if !WithinBudget(c) {
      var n := Earliest(c, 0, None);
      EarliestIsPrunable(c, 0, None);
      if n.Some? {
        PruneStreamOk(c, n.value);
        PruneStreamShrinks(c, n.value);
        EarliestGoesFirst(c);
        FirstInOrder(c, n.value);
        PrunesInOrder(PruneStream(c, n.value));
      }
    }
  }

  lemma FirstInOrder(c: State, n: nat)
    requires c.Shape() && n < |c.cfg|
    requires GoesFirst(c.ranges[0].queues, ReadersIn(c, 0), c.opts.seekableCache, n, |c.cfg|)
    ensures |c.ranges[0].queues[n].pkts| > 0 && RoundInOrder(c, n)
  {
  }

  // The memory that is left: at most that for seeking back, behind what the readers
  // have still to get; or, if the forward cache gives what it does not need, less
  // than both together.
  lemma BudgetIff(c: State)
    requires CacheOk(c) && c.Shape()
    ensures WithinBudget(c) <==>
              || Memory(c.ranges) <= c.opts.maxBytesBw + Forward(c)
              || (c.opts.donateFw && c.opts.maxBytesBw > 0 && Memory(c.ranges) < c.opts.maxBytesBw + c.opts.maxBytes)
  {
    hide CacheOk, Forward;
    TotalIsMemory(c);
  }

  // --- The subtraction in the budget test ---

  lemma {:induction false} QueuesBytesPositive(qs: seq<Queue>)
    requires forall n :: 0 <= n < |qs| ==> CumOk(qs[n])
    ensures QueuesBytes(qs) >= 0
    decreases |qs|
  {
    if |qs| > 0 {
      QueuesBytesPositive(qs[..|qs| - 1]);
      BytesAreSizes(qs[|qs| - 1]);
    }
  }

  lemma {:induction false} ForwardTotalWithin(qs: seq<Queue>, ss: seq<Stream>, n: nat)
    requires n <= |qs| == |ss|
    requires forall i :: 0 <= i < |qs| ==> CumOk(qs[i]) && ReaderOk(qs[i], ss[i])
    ensures 0 <= ForwardTotal(qs, ss, n) <= QueuesBytes(qs[..n])
  {
    if n > 0 {
      ForwardTotalWithin(qs, ss, n - 1);
      assert qs[..n][..n - 1] == qs[..n - 1];
      if ss[n - 1].readerHead.Some? {
        ForwardBytesAreSizes(qs[n - 1], ss[n - 1].readerHead.value);
      } else {
        BytesAreSizes(qs[n - 1]);
      }
    }
  }

  lemma {:induction false} TotalBytesAtLeast(rs: seq<Range>, r: nat)
    requires r < |rs|
    requires forall i :: 0 <= i < |rs| ==> RangeBytes(rs[i]) >= 0
    ensures TotalBytes(rs) >= RangeBytes(rs[r])
    decreases |rs|
  {
    TotalBytesPositive(rs[..|rs| - 1]);
    if r < |rs| - 1 {
      TotalBytesAtLeast(rs[..|rs| - 1], r);
    }
  }

  lemma {:induction false} TotalBytesPositive(rs: seq<Range>)
    requires forall i :: 0 <= i < |rs| ==> RangeBytes(rs[i]) >= 0
    ensures TotalBytes(rs) >= 0
    decreases |rs|
  {
    if |rs| > 0 {
      TotalBytesPositive(rs[..|rs| - 1]);
    }
  }

  // total_bytes - fw_bytes does not wrap around.
  lemma ForwardWithinTotal(c: State)
    requires CacheOk(c) && c.Shape()
    ensures 0 <= Forward(c) <= TotalBytes(c.ranges)
  {
    hide KeyframesOk, QIndexOk, StartOk, CumOk, Backed;
    forall r | 0 <= r < |c.ranges|
      ensures RangeBytes(c.ranges[r]) >= 0
    {
      assert RangeOk(c.ranges[r], c.cfg);
      assert forall n :: 0 <= n < |c.cfg| ==> QueueOk(c.ranges[r].queues[n], c.cfg[n]);
      QueuesBytesPositive(c.ranges[r].queues);
    }
    var qs := c.ranges[c.Last()].queues;
    assert RangeOk(c.ranges[c.Last()], c.cfg);
    assert forall n :: 0 <= n < |c.cfg| ==> QueueOk(qs[n], c.cfg[n]);
    ForwardTotalWithin(qs, c.streams, |qs|);
    assert qs[..|qs|] == qs;
    TotalBytesAtLeast(c.ranges, c.Last());
  }
}
