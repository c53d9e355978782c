// The demuxer's mutable state, updated in place the way the program does it.
//
// The functions of module Cache say what the operations mean. Here they are
// carried out step by step, with loops over ranges and streams, and with a byte
// counter that is only ever adjusted by differences.

module DemuxInternal {
  import opened Timestamps
  import opened Wrappers
  import opened Packets
  import opened RingIndex
  import opened Queues
  import opened Ranges
  import opened Cache
  import opened CacheInvariants
  import opened Pruning
  import opened CacheRuns

  lemma TotalAfterSet(rs: seq<Range>, r: nat, n: nat, q: Queue)
    requires r < |rs| && n < |rs[r].queues|
    ensures TotalBytes(rs[r := SetQueue(rs[r], n, q)])
            == TotalBytes(rs) - QueueBytes(rs[r].queues[n]) + QueueBytes(q)
  {
    QueuesBytesUpdate(rs[r].queues, n, q);
    TotalBytesUpdate(rs, r, SetQueue(rs[r], n, q));
  }

  // Recomputing a span does not change the bytes of a range.
  lemma TotalAfterSpan(rs: seq<Range>, r: nat, u: Range)
    requires r < |rs| && u.queues == rs[r].queues
    ensures TotalBytes(rs[r := u]) == TotalBytes(rs)
  {
    TotalBytesUpdate(rs, r, u);
  }

  class DemuxInternal {
    var ranges: seq<Range>
    const cfg: seq<StreamConfig>
    var streams: seq<Stream>
    var seeking: bool
    var seekPts: real
    var opts: Options
    var totalBytes: int

    ghost function View(): State
      reads this
    {
      State(ranges, cfg, streams, seeking, seekPts, opts)
    }

    // The counter is right. This holds even while an operation is under way.
    ghost predicate Accounted()
      reads this
    {
      View().Shape() && totalBytes == TotalBytes(ranges)
    }

    ghost predicate Valid()
      reads this
    {
      Accounted() && CacheOk(View())
    }

    // What the counter of a valid object counts.
    lemma CounterIsMemory()
      requires Valid()
      ensures totalBytes == Memory(ranges)
    {
      hide CacheOk, TotalBytes;
      TotalIsMemory(View());
    }

    constructor (cfg: seq<StreamConfig>, opts: Options)
      ensures Valid() && View() == Initial(cfg, opts)
    {
      this.cfg := cfg;
      this.opts := opts;
      ranges := [NewRange(cfg)];
      streams := seq(|cfg|, n => Stream(false, true, true, false, None, false));
      seeking, seekPts := false, NOPTS;
      totalBytes := 0;
      new;
      InitialOk(cfg, opts);
      EmptyBytes(NewRange(cfg).queues);
      assert ranges[..0] == [];
    }

    // --- Queues ---

    // remove_head_packet()
    method RemoveHeadPacket(r: nat, n: nat)
      requires Accounted() && r < |ranges| && n < |cfg| && |ranges[r].queues[n].pkts| > 0
      // the assertion that the reader is not there
      requires r == |ranges| - 1 ==> streams[n].readerHead != Some(ranges[r].queues[n].base)
      modifies this`ranges, this`totalBytes
      ensures Accounted()
      ensures ranges == old(ranges)[r := SetQueue(old(ranges)[r], n, RemoveHead(old(ranges)[r].queues[n]))]
    {
      var q := ranges[r].queues[n];
      var endPos := if |q.pkts| > 1 then q.cum[1] else q.tailCum;
      totalBytes := totalBytes - (endPos - q.cum[0]);
      RemoveHeadBytes(q);
      hide RemoveHead;
      TotalAfterSet(ranges, r, n, RemoveHead(q));
      ranges := ranges[r := SetQueue(ranges[r], n, RemoveHead(q))];
    }

    // clear_queue()
    method ClearQueue(r: nat, n: nat)
      requires Accounted() && r < |ranges| && n < |cfg|
      modifies this`ranges, this`totalBytes
      ensures Accounted()
      ensures ranges == old(ranges)[r := SetQueue(old(ranges)[r], n, Clear(old(ranges)[r].queues[n]))]
    {
      var q := ranges[r].queues[n];
      if |q.pkts| > 0 {
        totalBytes := totalBytes - (q.tailCum - q.cum[0]);
      }
      totalBytes := totalBytes - q.indexSize * ENTRY_BYTES;
      TotalAfterSet(ranges, r, n, Clear(q));
      ranges := ranges[r := SetQueue(ranges[r], n, Clear(q))];
    }

    // --- Ranges ---

    // update_seek_ranges()
    method UpdateRange(r: nat)
      requires Accounted() && r < |ranges|
      modifies this`ranges
      ensures Accounted()
      ensures ranges == old(ranges)[r := UpdateSeekRanges(old(ranges)[r], cfg)]
    {
      hide UpdateSeekRanges, TotalBytes;
      var u := UpdatedRange(ranges[r]);
      UpdatedSpan(ranges[r], cfg);
      TotalAfterSpan(ranges, r, u);
      ranges := ranges[r := u];
    }

    // Computes the span of a range from its queues.
    method UpdatedRange(r: Range) returns (u: Range)
      requires |r.queues| == |cfg|
      ensures u == UpdateSeekRanges(r, cfg)
    {
      var qs := r.queues;
      var seekStart, seekEnd, minStart, maxEnd := NOPTS, NOPTS, NOPTS, NOPTS;
      var isBof, isEof := true, true;
      var n := 0;
      var broken := false;
      while n < |qs| && !broken
        invariant n <= |qs|
        invariant isBof == AllBof(qs, cfg, n) && isEof == AllEof(qs, cfg, n)
        invariant !broken ==> FirstBad(qs, cfg, n) == FirstBad(qs, cfg, 0)
        invariant broken ==> n > 0 && FirstBad(qs, cfg, 0) == n - 1
        invariant seekStart == MaxStart(qs, cfg, n) && minStart == MinBofStart(qs, cfg, n)
        invariant seekEnd == MinEnd(qs, cfg, n) && maxEnd == MaxEofEnd(qs, cfg, n)
        decreases |qs| - n, !broken
      {
        var q := qs[n];
        if cfg[n].selected && cfg[n].eager {
          if q.isBof {
            minStart := PtsMin(minStart, q.seekStart);
          } else {
            seekStart := PtsMax(seekStart, q.seekStart);
          }
          if q.isEof {
            maxEnd := PtsMax(maxEnd, q.seekEnd);
          } else {
            seekEnd := PtsMin(seekEnd, q.seekEnd);
          }
          isEof := isEof && q.isEof;
          isBof := isBof && q.isBof;
          broken := BadSpan(q);
        }
        n := n + 1;
      }
      if !broken {
        seekEnd := if isEof then maxEnd else seekEnd;
        seekStart := if isBof then minStart else seekStart;
        seekStart := AddSparse(qs, seekStart);
        broken := seekStart >= seekEnd;
      }
      if broken {
        seekStart, seekEnd := NOPTS, NOPTS;
      }
      u := Range(qs, seekStart, seekEnd, isBof, isEof);
    }

    // Packets that were pruned from sparse streams cut off the start.
    method AddSparse(qs: seq<Queue>, start: real) returns (s: real)
      requires |qs| == |cfg|
      ensures s == SparseStart(qs, cfg, start, |qs|)
    {
      s := start;
      for n := 0 to |qs|
        invariant s == SparseStart(qs, cfg, start, n)
      {
        if cfg[n].selected && !cfg[n].eager && qs[n].lastPruned != NOPTS && s != NOPTS {
          s := PtsMax(s, qs[n].lastPruned + 0.1);
        }
      }
    }

    // clear_cached_range()
    method ClearCachedRange(r: nat)
      requires Accounted() && r < |ranges|
      modifies this`ranges, this`totalBytes
      ensures Accounted()
      ensures ranges == old(ranges)[r := ClearRange(old(ranges)[r], cfg)]
    {
      hide Clear, TotalBytes, Progress;
      ghost var was, ts := ranges, ClearAll(ranges[r].queues);
      ProgressStart(was, r, ts);
      for n := 0 to |cfg|
        invariant Accounted() && ranges == Progress(was, r, ts, n)
      {
        ProgressStep(was, r, ts, n);
        ClearQueue(r, n);
      }
      UpdateRange(r);
    }

    // Removes range r from the list; it has been cleared.
    method DropRange(r: nat)
      requires Accounted() && r < |ranges| - 1 && RangeBytes(ranges[r]) == 0
      modifies this`ranges
      ensures Accounted() && ranges == RemoveAt(old(ranges), r)
    {
      TotalBytesRemove(ranges, r);
      ranges := ranges[..r] + ranges[r + 1..];
    }

    // One pass of free_empty_cached_ranges(): drops the ranges that cannot be
    // seeked to, and finds the shortest of the others.
    method DropUnseekable() returns (worst: Option<nat>)
      requires Accounted()
      modifies this`ranges, this`totalBytes
      ensures Accounted()
      ensures var k := Kept(old(ranges)[..old(|ranges|) - 1], opts.seekableCache);
              && ranges == k + [old(ranges)[old(|ranges|) - 1]]
              && worst == if |k| == 0 then None else Some(Shortest(k))
    {
      hide Kept, ClearRange, PassState, Shortest;
      ghost var was := ranges;
      worst := None;
      var n := |ranges| - 1;
      PassStart(was, opts.seekableCache);
      while n > 0
        invariant Accounted() && 0 <= n < |was|
        invariant PassState(was, n, ranges, worst, opts.seekableCache)
      {
        n := n - 1;
        PassStep(was, n, ranges, worst, opts.seekableCache, ClearRange(was[n], cfg));
        if ranges[n].seekStart == NOPTS || !opts.seekableCache {
          ClearedHasNoSpan(was[n], cfg);
          ClearedBytes(was[n].queues);
          ClearCachedRange(n);
          DropRange(n);
          worst := if worst.Some? then Some(worst.value - 1) else None;
        } else if worst.None? || Length(ranges[n]) < Length(ranges[worst.value]) {
          worst := Some(n);
        }
      }
      PassEnd(was, ranges, worst, opts.seekableCache);
    }

    // free_empty_cached_ranges()
    method FreeEmptyCachedRanges()
      requires Accounted()
      modifies this`ranges, this`totalBytes
      ensures Accounted()
      ensures ranges == FreeEmpty(old(ranges), opts.seekableCache)
      // A range that could be seeked to and is freed was no longer than any that is left.
      ensures |old(ranges)| > 0 && |ranges| > 0
      ensures forall r, s :: r in old(ranges)[..|old(ranges)| - 1] && r.seekStart != NOPTS && opts.seekableCache
                             && r !in ranges[..|ranges| - 1] && s in ranges[..|ranges| - 1]
                ==> r.seekEnd - r.seekStart <= s.seekEnd - s.seekStart
    {
      hide Kept, Keep, Evict, ClearRange, Shortest, TotalBytes;
      ghost var last := ranges[|ranges| - 1];
      ghost var k := Kept(ranges[..|ranges| - 1], opts.seekableCache);
      KeptMembers(ranges[..|ranges| - 1], opts.seekableCache);
      while true
        invariant Accounted() && k == Kept(ranges[..|ranges| - 1], opts.seekableCache)
        invariant ranges[|ranges| - 1] == last
        invariant Evict(k, MAX_SEEK_RANGES - 1) + [last] == FreeEmpty(old(ranges), opts.seekableCache)
        invariant forall r :: r in k ==> Keep(r, opts.seekableCache)
        decreases |k|
      {
        var worst := DropUnseekable();
        assert |ranges| == |k| + 1;
        if |ranges| <= MAX_SEEK_RANGES || worst.None? {
          EvictUnfolded(k, MAX_SEEK_RANGES - 1);
          break;
        }
        EvictUnfolded(k, MAX_SEEK_RANGES - 1);
        assert ranges[worst.value] == k[worst.value];
        ghost var c := ClearRange(ranges[worst.value], cfg);
        ClearCachedRange(worst.value);
        ClearedHasNoSpan(k[worst.value], cfg);
        assert ranges[..|ranges| - 1] == k[worst.value := c];
        KeptAfterClear(k, worst.value, c, opts.seekableCache);
        k := RemoveAt(k, worst.value);
      }
      FreedWereShortest(old(ranges), opts.seekableCache);
    }

    // --- Joining ---

    method FindNext() returns (next: Option<nat>)
      requires Accounted()
      ensures next == ChooseNext(ranges, |ranges| - 1)
      ensures next.Some? ==> next.value < |ranges| - 1
      ensures var cur := ranges[|ranges| - 1];
              forall i :: 0 <= i < |ranges| - 1 && cur.seekStart <= ranges[i].seekStart < cur.seekEnd ==>
                && next.Some? && ranges[next.value].seekStart >= ranges[i].seekStart
                && (i < next.value ==> ranges[next.value].seekStart > ranges[i].seekStart)
    {
      NextOverlapsLeast(ranges, |ranges| - 1);
      var cur := ranges[|ranges| - 1];
      next := None;
      for n := 0 to |ranges| - 1
        invariant next == ChooseNext(ranges, n) && (next.Some? ==> next.value < n)
      {
        if cur.seekStart <= ranges[n].seekStart {
          var dist := cur.seekEnd - ranges[n].seekStart;
          if dist > 0.0 && (next.None? || dist < cur.seekEnd - ranges[next.value].seekStart) {
            next := Some(n);
          }
        }
      }
    }

    // Drops packets from queue n of the next range up to the join point.
    method TrimQueue(i: nat, n: nat) returns (ok: bool)
      requires Accounted() && i < |ranges| - 1 && n < |cfg|
      modifies this`ranges, this`totalBytes
      ensures Accounted() && |ranges| == |old(ranges)|
      ensures var t := TrimStream(old(ranges)[|ranges| - 1].queues[n], old(ranges)[i].queues[n], cfg[n], streams[n]);
              && (ok <==> t.Joinable?)
              && (ok ==> ranges[i].queues[n] == t.q)
      ensures ranges == old(ranges)[i := SetQueue(old(ranges)[i], n, ranges[i].queues[n])]
      ensures Clear(ranges[i].queues[n]) == Clear(old(ranges)[i].queues[n])
    {
      hide RemoveHead, Clear;
      ghost var was, q2 := ranges, ranges[i].queues[n];
      var s, q1 := streams[n], ranges[|ranges| - 1].queues[n];
      SetSame(ranges, i, n);
      if !s.globalCorrectPos && !s.globalCorrectDts {
        return false;
      }
      if |q1.pkts| == 0 {
        return true;
      }
      var end := q1.pkts[|q1.pkts| - 1];
      while |ranges[i].queues[n].pkts| > 0
        invariant Accounted() && |ranges| == |was|
        invariant ranges == was[i := SetQueue(was[i], n, ranges[i].queues[n])]
        invariant TrimToJoin(ranges[i].queues[n], end, s) == TrimToJoin(q2, end, s)
        invariant Clear(ranges[i].queues[n]) == Clear(q2)
        decreases |ranges[i].queues[n].pkts|
      {
        var q := ranges[i].queues[n];
        var dp := q.pkts[0];
        RemoveHeadBytes(q);
        ClearAfterRemove(q);
        if q.kfLatest == Some(q.base) {
          return false;
        }
        if SamePacket(s, dp, end) {
          if dp.dts != end.dts || dp.pos != end.pos || dp.pts != end.pts {
            return false;
          }
          SetAgain(was, i, n, q, RemoveHead(q));
          RemoveHeadPacket(i, n);
          return true;
        }
        if PastPacket(s, dp, end) {
          break;
        }
        SetAgain(was, i, n, q, RemoveHead(q));
        RemoveHeadPacket(i, n);
        RemoveHeadShorter(q);
      }
      ok := !cfg[n].eager;
    }

    // Looks for the join points of all streams.
    method TrimNext(i: nat) returns (ok: bool)
      requires Accounted() && i < |ranges| - 1
      modifies this`ranges, this`totalBytes
      ensures Accounted() && |ranges| == |old(ranges)|
      ensures var t := TrimAll(old(ranges)[|ranges| - 1].queues, old(ranges)[i].queues, cfg, streams, |cfg|);
              && (ok <==> t.Some?)
              && (ok ==> ranges[i].queues == t.value)
      ensures ranges == old(ranges)[i := old(ranges)[i].(queues := ranges[i].queues)]
      ensures ClearAll(ranges[i].queues) == ClearAll(old(ranges)[i].queues)
    {
      hide TrimStream, Clear, ClearAll, TrimAll, TotalBytes, TrimmedUpTo;
      ghost var was, qs1, qs2 := ranges, ranges[|ranges| - 1].queues, ranges[i].queues;
      TrimmedStart(qs1, qs2, cfg, streams);
      for n := 0 to |cfg|
        invariant Accounted() && |ranges| == |was|
        invariant ranges == was[i := was[i].(queues := ranges[i].queues)]
        invariant TrimmedUpTo(ranges[i].queues, qs1, qs2, cfg, streams, n)
        invariant ClearAll(ranges[i].queues) == ClearAll(qs2)
      {
        TrimmedStep(ranges[i].queues, qs1, qs2, cfg, streams, n);
        var joinable := TrimOne(i, n);
        if !joinable {
          return false;
        }
      }
      TrimmedEnd(ranges[i].queues, qs1, qs2, cfg, streams);
      ok := true;
    }

    // ... of one stream.
    method TrimOne(i: nat, n: nat) returns (ok: bool)
      requires Accounted() && i < |ranges| - 1 && n < |cfg|
      modifies this`ranges, this`totalBytes
      ensures Accounted() && |ranges| == |old(ranges)|
      ensures var t := TrimStream(old(ranges)[|ranges| - 1].queues[n], old(ranges)[i].queues[n], cfg[n], streams[n]);
              && (ok <==> t.Joinable?)
              && (ok ==> ranges[i].queues == old(ranges)[i].queues[n := t.q])
      ensures ranges == old(ranges)[i := old(ranges)[i].(queues := ranges[i].queues)]
      ensures ClearAll(ranges[i].queues) == ClearAll(old(ranges)[i].queues)
    {
      hide TrimStream, Clear, ClearAll, TotalBytes;
      ghost var was := ranges[i].queues;
      ok := TrimQueue(i, n);
      ClearedOne(was, n, ranges[i].queues[n]);
    }

    // Makes the positions of the packets of q2 continue at the given one.
    method RecountPositions(q2: Queue, start: nat) returns (cum: seq<nat>, tail: nat)
      requires CumOk(q2)
      ensures cum == Recounted(q2.cum, start) && tail == start + PacketBytes(q2)
    {
      hide CumOk, Recounted, NextCum, SizeSum, PacketBytes;
      RecountStart(q2, start);
      cum, tail := [], start;
      for k := 0 to |q2.pkts|
        invariant cum == Recounted(q2.cum, start)[..k]
        invariant tail == Recount(q2, start, k)
      {
        RecountStep(q2, start, k);
        var nextPos := if k + 1 < |q2.pkts| then q2.cum[k + 1] else q2.tailCum;
        var size := nextPos - q2.cum[k];
        cum := cum + [tail];
        tail := tail + size;
      }
    }

    // Adds the entries of q2's index, whose packets were renumbered.
    method JoinIndex(q: Queue, q2: Queue, end: nat) returns (r: Queue)
      modifies this`totalBytes
      ensures var es := Renumber(q2.index, q2.base, end);
              r == q.(index := AddEntries(q.index, es), indexSize := SizeAfterEntries(q.index, q.indexSize, es))
      ensures totalBytes == old(totalBytes) + (r.indexSize - q.indexSize) * ENTRY_BYTES
    {
      ghost var es := Renumber(q2.index, q2.base, end);
      r := q;
      hide Renumber, SizeAfterAdd, AddEntry;
      for k := 0 to |q2.index|
        invariant r == q.(index := r.index, indexSize := r.indexSize)
        invariant AddEntries(r.index, es[k..]) == AddEntries(q.index, es)
        invariant SizeAfterEntries(r.index, r.indexSize, es[k..]) == SizeAfterEntries(q.index, q.indexSize, es)
        invariant totalBytes == old(totalBytes) + (r.indexSize - q.indexSize) * ENTRY_BYTES
      {
        RenumberedAt(q2.index, q2.base, end, k);
        var e := q2.index[k];
        assert es[k..][0] == es[k] && es[k..][1..] == es[k + 1..];
        r := AddIndexEntry(r, IndexEntry(e.pts, if e.pkt >= q2.base then e.pkt - q2.base + end else end));
      }
    }

    // What becomes of the first queue.
    method LinkQueue(q1: Queue, q2: Queue) returns (r: Queue)
      requires CumOk(q1) && CumOk(q2)
      modifies this`totalBytes
      ensures r == Join(q1, q2)
      ensures totalBytes == old(totalBytes) + (r.indexSize - q1.indexSize) * ENTRY_BYTES
    {
      hide Recounted, Renumber, AddEntries, SizeAfterEntries, CumOk, SizeSum;
      BytesAreSizes(q2);
      var end := q1.base + |q1.pkts|;
      var cum, tail := RecountPositions(q2, q1.tailCum);
      r := q1.(pkts := q1.pkts + q2.pkts, cum := q1.cum + cum, tailCum := tail, seekEnd := q2.seekEnd,
               correctDts := q1.correctDts && q2.correctDts, correctPos := q1.correctPos && q2.correctPos,
               lastPos := q2.lastPos, lastDts := q2.lastDts,
               kfLatest := if q2.kfLatest.Some? && q2.kfLatest.value >= q2.base
                           then Some(q2.kfLatest.value - q2.base + end) else None,
               isEof := q2.isEof);
      r := JoinIndex(r, q2, end);
    }

    // A reader that waits gets the first packet that is joined.
    method JoinReader(n: nat, q1: Queue, q2: Queue)
      requires Accounted() && n < |cfg|
      modifies this`streams
      ensures Accounted() && streams == old(streams)[n := JoinStream(q1, q2, cfg[n], old(streams)[n])]
    {
      hide TotalBytes, QueuesShape;
      var s := streams[n];
      if cfg[n].selected && s.readerHead.None? && |q2.pkts| > 0 {
        s := s.(readerHead := Some(q1.base + |q1.pkts|));
      }
      streams := streams[n := s.(skipToKeyframe := false, refreshing := cfg[n].selected)];
    }

    // Moves the packets of queue n from range i to the current range. The index
    // of the first queue may grow; that of the second one is freed.
    method JoinQueue(i: nat, n: nat)
      requires Accounted() && i < |ranges| - 1 && n < |cfg|
      requires Consistent(ranges[|ranges| - 1].queues[n]) && Consistent(ranges[i].queues[n])
      modifies this`ranges, this`streams, this`totalBytes
      ensures Accounted() && |ranges| == |old(ranges)|
      ensures ranges == JoinedOne(old(ranges), i, n)
      ensures streams == old(streams)[n := JoinStream(old(ranges)[|ranges| - 1].queues[n], old(ranges)[i].queues[n], cfg[n], old(streams)[n])]
    {
      hide Join, JoinStream, Consistent, CumOk, TotalBytes, Emptied;
      var last := |ranges| - 1;
      var q1, q2 := ranges[last].queues[n], ranges[i].queues[n];
      CumOfConsistent(q1);
      CumOfConsistent(q2);
      JoinedOneBytes(ranges, i, n, cfg);
      JoinedOneShape(ranges, i, n, cfg);
      JoinReader(n, q1, q2);
      var q := LinkQueue(q1, q2);
      totalBytes := totalBytes - q2.indexSize * ENTRY_BYTES;
      ranges := ranges[i := SetQueue(ranges[i], n, Emptied(q2))][last := SetQueue(ranges[last], n, q)];
    }

    // Joins the queues of all streams.
    method JoinQueues(i: nat)
      requires Accounted() && i < |ranges| - 1
      requires forall n :: 0 <= n < |cfg| ==> Consistent(ranges[|ranges| - 1].queues[n]) && Consistent(ranges[i].queues[n])
      modifies this`ranges, this`streams, this`totalBytes
      ensures Accounted() && |ranges| == |old(ranges)|
      ensures ranges == JoinedUpTo(old(ranges), i, |cfg|)
      ensures streams == JoinStreams(old(ranges)[|ranges| - 1].queues, old(ranges)[i].queues, cfg, old(streams))
    {
      hide Join, Emptied, JoinStream, Consistent, JoinedOne, JoinedUpTo, JoinStreams, QueuesShape;
      ghost var was, ss := ranges, streams;
      ghost var qs1, qs2 := was[|was| - 1].queues, was[i].queues;
      QueueCounts(was, cfg);
      JoinedNone(was, i);
      StreamsNone(qs1, qs2, cfg, ss);
      for n := 0 to |cfg|
        invariant Accounted() && |ranges| == |was| && |ss| == |cfg|
        invariant ranges == JoinedUpTo(was, i, n)
        invariant streams == JoinStreams(qs1, qs2, cfg, ss)[..n] + ss[n..]
      {
        JoinedNext(was, i, n);
        StreamsNext(qs1, qs2, cfg, ss, n);
        JoinQueue(i, n);
      }
      assert ss[|cfg|..] == [];
      assert streams == JoinStreams(qs1, qs2, cfg, ss);
    }

    // attempt_range_joining()
    method AttemptRangeJoining()
      requires Valid()
      modifies this`ranges, this`streams, this`totalBytes, this`seeking, this`seekPts
      ensures Accounted() && View() == AttemptJoin(old(View()))
    {
      hide CacheOk, TrimAll, ChooseNext, UpdateSeekRanges, FreeEmpty, JoinWith, ClearAll, ClearRange, AttemptJoin, TotalBytes;
      var next := FindNext();
      ghost var was := View();
      if next.None? {
        NoneToJoin(was);
        return;
      }
      var i := next.value;
      TrimAndJoin(i);
      ClearCachedRange(i);
      AttemptUnfolded(was, i);
      assert ranges == Joined(was, i).ranges[i := ClearRange(was.ranges[i], cfg)];
      FreeEmptyCachedRanges();
    }

    // Joins the range with the current one, if it can be.
    method TrimAndJoin(i: nat)
      requires Valid() && i < |ranges| - 1
      modifies this`ranges, this`streams, this`totalBytes, this`seeking, this`seekPts
      ensures Accounted() && |ranges| == |old(ranges)|
      ensures var c1 := Joined(old(View()), i);
              && streams == c1.streams && seeking == c1.seeking && seekPts == c1.seekPts
              && |c1.ranges| == |ranges| && ranges == c1.ranges[i := ranges[i]]
      ensures ClearRange(ranges[i], cfg) == ClearRange(old(ranges)[i], cfg)
    {
      hide CacheOk, TrimAll, UpdateSeekRanges, JoinStreams, JoinedUpTo, ClearAll, ClearRange, TotalBytes;
      ghost var was := View();
      NextQueuesConsistent(was, i);
      var ok := TrimNext(i);
      if ok {
        ghost var rs := ranges;
        JoinQueues(i);
        JoinedShape(rs, i, |cfg|);
        UpdateRange(|ranges| - 1);
        // Let the demuxer continue behind what was joined.
        seeking := true;
        seekPts := ranges[i].seekEnd - 1.0;
        JoinedOutcome(was, i, rs, ranges);
      }
      ClearRangeSame(was.ranges[i], ranges[i], cfg);
    }

    // --- Adding packets, EOF ---

    // Writes back a queue of the current range, after the counter was adjusted.
    method StoreQueue(n: nat, q: Queue)
      requires View().Shape() && n < |cfg| && |q.cum| == |q.pkts|
      requires totalBytes == TotalBytes(ranges) + QueueBytes(q) - QueueBytes(ranges[|ranges| - 1].queues[n])
      modifies this`ranges
      ensures Accounted()
      ensures var last := |old(ranges)| - 1;
              ranges == old(ranges)[last := SetQueue(old(ranges)[last], n, q)]
    {
      var last := |ranges| - 1;
      hide QueueBytes;
      TotalAfterSet(ranges, last, n, q);
      ShapeAfterSet(ranges[last], n, q, cfg);
      ranges := ranges[last := SetQueue(ranges[last], n, q)];
    }

    // compute_keyframe_times() for the run at i
    method KeyframeTimes(s: seq<Packet>, i: nat) returns (kfMin: real, kfMax: real, next: nat)
      requires i < |s|
      ensures kfMin == RunMin(s, i) && kfMax == RunMax(s, i) && next == RunEnd(s, i)
    {
      kfMin, kfMax, next := NOPTS, NOPTS, i;
      while next < |s| && (next == i || !s[next].keyframe)
        invariant i <= next <= |s|
        invariant kfMin == MinTime(s, i, next) && kfMax == MaxTime(s, i, next)
        invariant forall k :: i < k < next ==> !s[k].keyframe
      {
        var ts := PtsOrDef(s[next].pts, s[next].dts);
        if s[next].segmented && ((s[next].start != NOPTS && ts < s[next].start) || (s[next].end != NOPTS && ts > s[next].end)) {
          ts := NOPTS;
        }
        kfMin, kfMax := PtsMin(kfMin, ts), PtsMax(kfMax, ts);
        next := next + 1;
      }
      NextKeyframeUnique(s, i + 1, next);
    }

    // add_index_entry(); the ring buffer it is kept in is that of RingIndex.
    method AddIndexEntry(q: Queue, e: IndexEntry<nat>) returns (r: Queue)
      modifies this`totalBytes
      ensures r == Index(q, e)
      ensures totalBytes == old(totalBytes) + (r.indexSize - q.indexSize) * ENTRY_BYTES
    {
      r := q;
      if |q.index| > 0 && e.pts - q.index[|q.index| - 1].pts < INDEX_STEP_SIZE {
        return;
      }
      if |q.index| == q.indexSize {
        var newSize := if q.indexSize * 2 > 128 then q.indexSize * 2 else 128;
        totalBytes := totalBytes + (newSize - q.indexSize) * ENTRY_BYTES;
        r := r.(indexSize := newSize);
      }
      r := r.(index := r.index + [e]);
    }

    // The part of adjust_seek_range_on_packet() that concerns the queue q. Returns
    // whether the span of the range, which ends at rangeEnd, has to be updated.
    method AdjustedQueue(q: Queue, dp: Option<nat>, preroll: real, rangeEnd: real) returns (r: Queue, update: bool)
      requires KeyframesOk(q) && (dp.Some? ==> q.Has(dp.value))
      modifies this`totalBytes
      ensures r == AdjustQueue(q, dp, preroll) && update == NeedsUpdate(q, dp, rangeEnd)
      ensures totalBytes == old(totalBytes) + (r.indexSize - q.indexSize) * ENTRY_BYTES
    {
      hide RunMin, RunMax, AllBelow, NextKeyframe, AddEntry, SizeAfterAdd, KeyframesOk, AdjustQueue, NeedsUpdate, Index;
      AdjustCases(q, dp, preroll, rangeEnd);
      update := q.isEof != dp.None?;
      r := q;
      var seekStart, seekEnd, kfLatest := q.seekStart, q.seekEnd, q.kfLatest;
      if dp.None? || q.pkts[dp.value - q.base].keyframe {
        if kfLatest.Some? {
          var kfMin, kfMax, _ := KeyframeTimes(q.pkts, kfLatest.value - q.base);
          if kfMin != NOPTS {
            r := AddIndexEntry(q, IndexEntry(kfMin, kfLatest.value));
            // A start that is not set yet is the start of this run.
            if seekStart == NOPTS {
              update := true;
              seekStart := kfMin + preroll;
            }
          }
          if kfMax != NOPTS && (seekEnd == NOPTS || kfMax > seekEnd) {
            if rangeEnd == NOPTS || seekEnd <= rangeEnd {
              update := true;
            }
            seekEnd := kfMax;
          }
        }
        kfLatest := dp;
      }
      r := r.(isEof := dp.None?, seekStart := seekStart, seekEnd := seekEnd, kfLatest := kfLatest);
    }

    method AdjustQueueOnPacket(n: nat, dp: Option<nat>) returns (update: bool)
      requires Accounted() && n < |cfg| && KeyframesOk(ranges[|ranges| - 1].queues[n])
      requires dp.Some? ==> ranges[|ranges| - 1].queues[n].Has(dp.value)
      modifies this`ranges, this`totalBytes
      ensures Accounted()
      ensures var last, r := |old(ranges)| - 1, old(ranges)[|old(ranges)| - 1];
              && ranges == old(ranges)[last := SetQueue(r, n, AdjustQueue(r.queues[n], dp, cfg[n].preroll))]
              && update == NeedsUpdate(r.queues[n], dp, r.seekEnd)
    {
      hide AdjustQueue, NeedsUpdate, KeyframesOk, TotalBytes, QueuesShape;
      var last := |ranges| - 1;
      LengthsOf(ranges[last], n, cfg);
      var q := ranges[last].queues[n];
      AdjustKeepsList(q, dp, cfg[n].preroll);
      var q', moved := AdjustedQueue(q, dp, cfg[n].preroll, ranges[last].seekEnd);
      StoreQueue(n, q');
      update := moved;
    }

    // adjust_seek_range_on_packet(); dp is None at EOF
    method AdjustSeekRangeOnPacket(n: nat, dp: Option<nat>)
      requires Valid() && n < |cfg|
      requires var q := ranges[|ranges| - 1].queues[n];
               dp.Some? ==> q.Has(dp.value) && AllBelow(q.index, dp.value)
                            && (q.kfLatest.Some? ==> q.kfLatest.value < dp.value)
      modifies this`ranges, this`streams, this`totalBytes, this`seeking, this`seekPts
      ensures Valid() && View() == AdjustSeekRange(old(View()), n, dp)
    {
      hide CacheOk, AdjustSeekRange, AttemptJoin, UpdateSeekRanges, NeedsUpdate, AdjustQueue, AllBelow, TotalBytes, Consistent;
      ghost var was := View();
      AdjustSeekRangeOk(was, n, dp);
      AdjustUnfolded(was, n, dp);
      OkHasShape(AdjustSeekRange(was, n, dp));
      if !opts.seekableCache {
        return;
      }
      var last := |ranges| - 1;
      ghost var r := ranges[last];
      KeyframesOf(was, n);
      var update := AdjustQueueOnPacket(n, dp);
      // The span of a range does not depend on what arrives in sparse streams.
      if update && cfg[n].eager {
        UpdateRange(last);
        AdjustedStateOk(was, n, dp);
        assert ranges == was.ranges[last := UpdateSeekRanges(SetQueue(r, n, AdjustQueue(r.queues[n], dp, cfg[n].preroll)), cfg)];
        AttemptRangeJoining();
      }
    }

    // add_packet_locked()
    method AddPacketLocked(n: nat, p: Packet)
      requires Valid() && n < |cfg|
      modifies this`ranges, this`streams, this`totalBytes, this`seeking, this`seekPts
      ensures Valid() && View() == DeliverStep(old(View()), n, p)
    {
      hide CacheOk, AdjustSeekRange, AttemptJoin, Append, Prune;
      ghost var was := View();
      AddPacketOk(was, n, p);
      OkHasShape(AddPacket(was, n, p));
      if p.len == 0 {
        return;
      }
      var last := |ranges| - 1;
      var queue := ranges[last].queues[n];
      var drop := !cfg[n].selected || seeking;
      if !drop && streams[n].refreshing {
        // The queue has this packet already, at the latest it is its last one.
        streams := streams[n := streams[n].(refreshing :=
          if queue.correctDts then p.dts < queue.lastDts
          else if queue.correctPos then p.pos < queue.lastPos
          else false)];
        drop := true;
      }
      if drop {
        return;
      }
      AppendToQueue(n, p);
      AppendedIsLast(was, n, p);
      AdjustSeekRangeOnPacket(n, Some(ranges[last].queues[n].End() - 1));
      PruneOldPackets();
    }

    // The packet becomes the last one of queue q, and may be what the reader of
    // the stream waits for.
    method AppendedQueue(q: Queue, s: Stream, p: Packet, video: bool) returns (r: Queue, t: Stream)
      modifies this`totalBytes
      ensures r == Append(q, if !video && p.pts == NOPTS then p.(pts := p.dts) else p)
      ensures totalBytes == old(totalBytes) + p.size
      ensures var starts := s.readerHead.None? && (!s.skipToKeyframe || p.keyframe);
              t == s.(globalCorrectPos := s.globalCorrectPos && r.correctPos,
                      globalCorrectDts := s.globalCorrectDts && r.correctDts,
                      readerHead := if starts then Some(q.End()) else s.readerHead,
                      skipToKeyframe := if starts then false else s.skipToKeyframe,
                      eof := false)
    {
      var correctPos := q.correctPos && p.pos >= 0 && p.pos > q.lastPos;
      var correctDts := q.correctDts && p.dts != NOPTS && p.dts > q.lastDts;
      var head, skip := s.readerHead, s.skipToKeyframe;
      if head.None? && (!skip || p.keyframe) {
        head, skip := Some(q.End()), false;
      }
      t := s.(globalCorrectPos := s.globalCorrectPos && correctPos, globalCorrectDts := s.globalCorrectDts && correctDts,
              readerHead := head, skipToKeyframe := skip, eof := false);
      var bytes := p.size;
      totalBytes := totalBytes + bytes;
      var dp := if !video && p.pts == NOPTS then p.(pts := p.dts) else p;
      r := q.(correctPos := correctPos, correctDts := correctDts, lastPos := p.pos, lastDts := p.dts,
              pkts := q.pkts + [dp], cum := q.cum + [q.tailCum], tailCum := q.tailCum + bytes);
    }

    method AppendToQueue(n: nat, p: Packet)
      requires Valid() && n < |cfg|
      modifies this`ranges, this`streams, this`totalBytes
      ensures Valid() && View() == AppendPacket(old(View()), n, p)
    {
      hide CacheOk, SizeSum, QueueBytes, TotalBytes, QueuesShape, Append;
      var last := |ranges| - 1;
      ghost var was := View();
      LengthsOf(ranges[last], n, cfg);
      AppendPacketOk(was, n, p);
      AppendBytes(was, n, Stored(p, cfg[n]));
      var q, s := AppendedQueue(ranges[last].queues[n], streams[n], p, cfg[n].video);
      StoreQueue(n, q);
      streams := streams[n := s];
    }

    // mark_stream_eof()
    method MarkStreamEof(n: nat)
      requires Valid() && n < |cfg|
      modifies this`ranges, this`streams, this`totalBytes, this`seeking, this`seekPts
      ensures Valid() && View() == MarkEof(old(View()), n)
    {
      if !streams[n].eof {
        ghost var was := View();
        EofStateOk(was, n);
        hide CacheOk, AdjustSeekRange;
        streams := streams[n := streams[n].(eof := true)];
        AdjustSeekRangeOnPacket(n, None);
      }
    }

    // --- Pruning ---

    // The bytes from the readers' positions on.
    method ForwardBufferedBytes() returns (fw: int)
      requires Accounted()
      ensures fw == Forward(View())
    {
      fw := 0;
      for n := 0 to |streams|
        invariant fw == ForwardTotal(ranges[|ranges| - 1].queues, streams, n)
      {
        fw := fw + ForwardBytes(ranges[|ranges| - 1].queues[n], streams[n].readerHead);
      }
    }

    // The stream to prune next, in the least recently used range.
    method EarliestStream() returns (earliest: Option<nat>)
      requires Accounted()
      ensures earliest == Earliest(View(), 0, None)
      ensures earliest.Some? ==>
                && earliest.value < |cfg| && |ranges[0].queues| == |streams| == |cfg|
                && GoesFirst(ranges[0].queues, ReadersIn(View(), 0), opts.seekableCache, earliest.value, |cfg|)
    {
      EarliestGoesFirst(View());
      hide GoesFirst;
      var qs := ranges[0].queues;
      earliest := None;
      for n := 0 to |qs|
        invariant earliest.Some? ==> earliest.value < |qs|
        invariant Earliest(View(), n, earliest) == Earliest(View(), 0, None)
      {
        var reader := if 0 == |ranges| - 1 then streams[n].readerHead else None;
        if |qs[n].pkts| > 0 && reader != Some(qs[n].base) {
          var always := !opts.seekableCache || qs[n].seekStart == NOPTS || !qs[n].pkts[0].keyframe;
          if always || earliest.None? || qs[n].seekStart < qs[earliest.value].seekStart {
            earliest := Some(n);
            if always {
              return;
            }
          }
        }
      }
    }

    // Removes the oldest keyframe run of stream n, or what comes before it.
    method RemoveRun(n: nat) returns (kfPruned: bool)
      requires Accounted() && n < |cfg|
      modifies this`ranges, this`totalBytes
      ensures Accounted()
      ensures var r, q := old(ranges)[0], old(ranges)[0].queues[n];
              var p := PruneRun(q, ReaderIn(old(View()), 0, n), opts.seekableCache, |q.pkts| > 0 && !q.pkts[0].keyframe, false);
              kfPruned == p.kfPruned && ranges == old(ranges)[0 := SetQueue(r, n, p.q)]
    {
      hide RemoveHead;
      ghost var was := ranges;
      var q0, seekable := ranges[0].queues[n], opts.seekableCache;
      var reader := if 0 == |ranges| - 1 then streams[n].readerHead else None;
      SetSame(ranges, 0, n);
      var nonKf := |q0.pkts| > 0 && !q0.pkts[0].keyframe;
      kfPruned := false;
      while |ranges[0].queues[n].pkts| > 0 && reader != Some(ranges[0].queues[n].base)
        invariant Accounted() && |ranges| == |was|
        invariant ranges == was[0 := SetQueue(was[0], n, ranges[0].queues[n])]
        invariant PruneRun(ranges[0].queues[n], reader, seekable, nonKf, kfPruned)
                  == PruneRun(q0, reader, seekable, nonKf, false)
        decreases |ranges[0].queues[n].pkts|
      {
        var q := ranges[0].queues[n];
        RemoveHeadShorter(q);
        if q.pkts[0].keyframe {
          // One run at a time, if runs matter.
          if (kfPruned || nonKf) && seekable {
            break;
          }
          kfPruned := true;
        }
        SetAgain(was, 0, n, q, RemoveHead(q));
        RemoveHeadPacket(0, n);
      }
    }

    method PruneOneStream(n: nat)
      requires Valid() && n < |cfg|
      modifies this`ranges, this`totalBytes
      ensures Valid() && View() == PruneStream(old(View()), n)
    {
      hide CacheOk, UpdateSeekRanges, FreeEmpty, Restart, PruneStream, Consistent, QueueOk, PruneRun,
        TotalBytes, SameUnread, Unread, ForwardBytes, SizeSum, ForwardTotal, RangeOk, ReadersOk;
      ghost var was := View();
      ghost var q0, reader := ranges[0].queues[n], ReaderIn(was, 0, n);
      PruneStreamOk(was, n);
      PruneStreamUnfolded(was, n);
      QueueOfOk(was, 0, n);
      PruneRunOk(q0, reader, opts.seekableCache, |q0.pkts| > 0 && !q0.pkts[0].keyframe, false);
      var r := ranges[0];
      var kfPruned := RemoveRun(n);
      if kfPruned {
        var q := ranges[0].queues[n];
        assert q.kfFirst.None?;
        SetAgain(was.ranges, 0, n, q, Restart(q, cfg[n].preroll));
        RestartQueue(n);
        if StartMoved(r, ranges[0].queues[n]) {
          UpdateRange(0);
        }
      }
      assert ranges == was.ranges[0 := PrunedRange(r, n, PruneQueue(q0, reader, opts.seekableCache, cfg[n].preroll), cfg)];
      if 0 != |ranges| - 1 && ranges[0].seekStart == NOPTS {
        FreeEmptyCachedRanges();
      }
    }

    // Stores the new start of a pruned queue.
    method RestartQueue(n: nat)
      requires Accounted() && n < |cfg|
      modifies this`ranges
      ensures Accounted()
      ensures ranges == old(ranges)[0 := SetQueue(old(ranges)[0], n, Restart(old(ranges)[0].queues[n], cfg[n].preroll))]
    {
      hide Restart, QueueBytes;
      var q := ranges[0].queues[n];
      var q' := RestartedQueue(q, cfg[n].preroll);
      RestartLengths(q, cfg[n].preroll);
      TotalAfterSet(ranges, 0, n, q');
      ShapeAfterSet(ranges[0], n, q', cfg);
      ranges := ranges[0 := SetQueue(ranges[0], n, q')];
    }

    // Finds the first keyframe that is left, and when it starts.
    method RestartedQueue(q: Queue, preroll: real) returns (r: Queue)
      ensures r == Restart(q, preroll)
    {
      var first := 0;
      while first < |q.pkts| && !q.pkts[first].keyframe
        invariant first <= |q.pkts| && NextKeyframe(q.pkts, first) == NextKeyframe(q.pkts, 0)
      {
        first := first + 1;
      }
      var kfMin := NOPTS;
      if first < |q.pkts| {
        var start, _, _ := KeyframeTimes(q.pkts, first);
        kfMin := start;
      }
      r := q.(kfFirst := if first < |q.pkts| then Some(q.base + first) else None,
              lastPruned := if q.seekStart != NOPTS then q.seekStart else q.lastPruned,
              seekStart := if kfMin == NOPTS then NOPTS else kfMin + preroll);
    }

    // prune_old_packets()
    method PruneOldPackets()
      requires Valid()
      modifies this`ranges, this`totalBytes
      ensures Valid() && View() == Prune(old(View()))
    {
      hide CacheOk, Earliest, PruneStream, Forward, TotalPackets;
      while true
        invariant Valid() && Prune(View()) == Prune(old(View()))
        decreases TotalPackets(ranges)
      {
        var fw := ForwardBufferedBytes();
        ForwardWithinTotal(View());
        assert totalBytes >= fw;
        // What the forward cache does not use, less 1, is there for the backward
        // cache, unless that is off.
        var maxAvail := opts.maxBytesBw;
        if maxAvail > 0 && opts.maxBytes > fw + 1 && opts.donateFw {
          maxAvail := maxAvail + (opts.maxBytes - (fw + 1));
        }
        if totalBytes - fw <= maxAvail {
          break;
        }
        var n := EarliestStream();
        EarliestIsPrunable(View(), 0, None);
        if n.None? {
          break;
        }
        PruneStreamShrinks(View(), n.value);
        PruneOneStream(n.value);
      }
    }

    // The part of dequeue_packet() for forward playback that takes the packet.
    method DequeuePacket(n: nat) returns (p: Option<Packet>)
      requires Valid() && n < |cfg|
      modifies this`ranges, this`streams, this`totalBytes
      ensures Valid() && View() == ReadStep(old(View()), n)
      ensures var q, reader := old(ranges)[old(|ranges|) - 1].queues[n], old(streams)[n].readerHead;
              p == if reader.None? then None else Some(Unread(q, reader)[0])
    {
      hide CacheOk, Prune, Advance;
      ghost var was := View();
      ReadOk(was, n);
      QueueOfOk(was, was.Last(), n);
      var q, reader := ranges[|ranges| - 1].queues[n], streams[n].readerHead;
      if reader.None? {
        return None;
      }
      p := Some(q.pkts[reader.value - q.base]);
      streams := streams[n := Advance(q, streams[n])];
      PruneOldPackets();
    }

    // --- Seeking ---

    // Drops what comes before the first keyframe.
    method TrimHead(r: nat, n: nat)
      requires Accounted() && r < |ranges| - 1 && n < |cfg|
      modifies this`ranges, this`totalBytes
      ensures Accounted()
      ensures ranges == old(ranges)[r := SetQueue(old(ranges)[r], n, TrimNonKeyframes(old(ranges)[r].queues[n]))]
    {
      hide RemoveHead;
      ghost var was, q0 := ranges, ranges[r].queues[n];
      SetSame(ranges, r, n);
      while |ranges[r].queues[n].pkts| > 0 && !ranges[r].queues[n].pkts[0].keyframe
        invariant Accounted() && |ranges| == |was|
        invariant ranges == was[r := SetQueue(was[r], n, ranges[r].queues[n])]
        invariant TrimNonKeyframes(ranges[r].queues[n]) == TrimNonKeyframes(q0)
        decreases |ranges[r].queues[n].pkts|
      {
        var q := ranges[r].queues[n];
        RemoveHeadShorter(q);
        SetAgain(was, r, n, q, RemoveHead(q));
        RemoveHeadPacket(r, n);
      }
    }

    method TrimOldRange(r: nat)
      requires Accounted() && r < |ranges| - 1
      modifies this`ranges, this`totalBytes
      ensures Accounted()
      ensures QueuesShape(old(ranges)[r], cfg) && ranges == old(ranges)[r := TrimRange(old(ranges)[r], cfg)]
    {
      hide TrimNonKeyframes, TotalBytes, TrimRange, Progress;
      TrimmedShape(ranges[r], cfg);
      ghost var was, ts := ranges, TrimRange(ranges[r], cfg).queues;
      ProgressStart(was, r, ts);
      for n := 0 to |cfg|
        invariant Accounted() && ranges == Progress(was, r, ts, n)
      {
        ProgressStep(was, r, ts, n);
        TrimHead(r, n);
      }
    }

    // set_current_range(): moves range i to the end of the list.
    method SetCurrentRange(i: nat)
      requires Accounted() && i < |ranges|
      modifies this`ranges
      ensures Accounted() && ranges == RemoveAt(old(ranges), i) + [old(ranges)[i]]
    {
      TotalBytesRemove(ranges, i);
      TotalBytesSplit(RemoveAt(ranges, i), [ranges[i]]);
      assert [ranges[i]][..0] == [];
      MovedShape(ranges, i, cfg);
      ranges := ranges[..i] + ranges[i + 1..] + [ranges[i]];
    }

    // switch_current_range()
    method IsUnjoinable() returns (found: bool)
      requires |streams| == |cfg|
      ensures found == Unjoinable(View())
    {
      var n := 0;
      while n < |cfg|
        invariant n <= |cfg|
        invariant forall k :: 0 <= k < n ==> !(cfg[k].selected && !streams[k].globalCorrectDts && !streams[k].globalCorrectPos)
      {
        if cfg[n].selected && !(streams[n].globalCorrectDts || streams[n].globalCorrectPos) {
          return true;
        }
        n := n + 1;
      }
      found := false;
    }

    method SwitchCurrentRange(i: nat)
      requires Accounted() && i < |ranges| - 1
      modifies this`ranges, this`streams, this`totalBytes
      ensures Accounted() && View() == SwitchRange(old(View()), i)
    {
      hide TrimRange, ClearRange, FreeEmpty, TotalBytes, Unjoinable, SwitchRange;
      ghost var was := View();
      LeaveCurrentRange(i);
      var ss := streams;
      streams := seq(|ss|, k requires 0 <= k < |ss| => ss[k].(refreshing := false, eof := false));
      SwitchUnfolded(was, i, ranges, streams);
      FreeEmptyCachedRanges();
    }

    // Makes the range at i the current one, and trims the one that was it.
    method LeaveCurrentRange(i: nat)
      requires Accounted() && i < |ranges| - 1
      modifies this`ranges, this`totalBytes
      ensures Accounted()
      ensures var rs := old(ranges);
              QueuesShape(rs[|rs| - 1], cfg)
              && var last := TrimRange(rs[|rs| - 1], cfg);
                 ranges == rs[..i] + rs[i + 1..|rs| - 1]
                           + [if Unjoinable(old(View())) then ClearRange(last, cfg) else last] + [rs[i]]
    {
      hide TrimRange, ClearRange, TotalBytes, Unjoinable, RemoveAt;
      ghost var rs := ranges;
      var prev := |ranges| - 2;
      SetCurrentRange(i);
      MovedRanges(rs, i);
      assert ranges[prev] == rs[|rs| - 1];
      TrimOldRange(prev);
      // Without the order of packets, the range could not be continued later.
      var unjoinable := IsUnjoinable();
      SameUnjoinable(old(View()), View());
      ghost var last := TrimRange(rs[|rs| - 1], cfg);
      assert ranges[prev] == last;
      if unjoinable {
        MovedRangesSet(rs, i, ClearRange(last, cfg));
        ClearCachedRange(prev);
      } else {
        MovedRangesSet(rs, i, last);
      }
    }

    // switch_to_fresh_cache_range()
    method SwitchToFreshCacheRange()
      requires Accounted()
      modifies this`ranges, this`streams, this`totalBytes
      ensures Accounted() && View() == FreshRange(old(View()))
    {
      hide SwitchRange, ClearRange, TotalBytes;
      if !opts.seekableCache {
        ClearCachedRange(|ranges| - 1);
        return;
      }
      var last := |ranges| - 1;
      var r := NewRange(cfg);
      FreshBytes(ranges, cfg);
      ranges := ranges[..last] + [r, ranges[last]];
      SwitchCurrentRange(last);
    }

    // find_cache_seek_range()
    method FindCacheSeekRange(pts: real) returns (k: nat)
      requires Accounted()
      ensures k == if opts.seekableCache then FindCacheRange(View(), pts, 0) else |ranges|
      ensures k < |ranges| ==>
                var r := ranges[k];
                r.seekStart != NOPTS && (r.seekStart <= pts || r.isBof) && (pts <= r.seekEnd || r.isEof)
      ensures opts.seekableCache ==> forall i :: 0 <= i < k ==>
                var r := ranges[i];
                r.seekStart == NOPTS || (pts < r.seekStart && !r.isBof) || (r.seekEnd < pts && !r.isEof)
    {
      if !opts.seekableCache {
        return |ranges|;
      }
      FoundIsFirst(View(), pts, 0);
      k := 0;
      while k < |ranges|
        invariant k <= |ranges| && FindCacheRange(View(), pts, k) == FindCacheRange(View(), pts, 0)
      {
        var r := ranges[k];
        if r.seekStart != NOPTS && (pts >= r.seekStart || r.isBof) && (pts <= r.seekEnd || r.isEof) {
          return;
        }
        k := k + 1;
      }
    }

    // Points all readers into range r.
    method SeekReaders(r: Range, to: SeekPoint)
      requires Accounted() && |r.queues| == |cfg|
      modifies this`streams
      ensures Accounted() && streams == SeekStreams(old(View()), r, to)
    {
      hide QueueTarget, TotalBytes, QueuesShape, SeekStreams;
      ghost var was := View();
      ghost var ss := SeekStreams(was, r, to);
      assert streams == ss[..0] + streams[0..];
      for n := 0 to |cfg|
        invariant Accounted() && streams == ss[..n] + was.streams[n..]
      {
        var target := QueueTarget(r.queues[n], cfg[n], to.pts, to.forward);
        streams := streams[n := streams[n].(
          readerHead := if target.Some? then Some(r.queues[n].base + target.value) else None,
          skipToKeyframe := target.None?)];
        SeekStreamsStep(was, r, to, n);
      }
      assert streams == ss;
    }

    // adjust_cache_seek_target()
    method AdjustCacheSeekTarget(r: Range, to: SeekPoint) returns (to': SeekPoint)
      requires |r.queues| == |cfg|
      ensures to' == AdjustTarget(r, cfg, to, 0)
    {
      hide QueueTarget, RunMin, RunMax;
      to' := to;
      var n := 0;
      while n < |cfg|
        invariant n <= |cfg| && to' == to && AdjustTarget(r, cfg, to, n) == AdjustTarget(r, cfg, to, 0)
      {
        if cfg[n].selected && cfg[n].video {
          var target := QueueTarget(r.queues[n], cfg[n], to.pts, to.forward);
          if target.Some? && target.value < |r.queues[n].pkts| {
            var targetPts, _, _ := KeyframeTimes(r.queues[n].pkts, target.value);
            if targetPts != NOPTS {
              to' := SeekPoint(targetPts, false);
            }
          }
          return;
        }
        n := n + 1;
      }
    }

    // execute_cache_seek()
    method ExecuteCacheSeek(i: nat, to: SeekPoint, hr: bool)
      requires Accounted() && i < |ranges|
      modifies this`ranges, this`streams, this`totalBytes, this`seeking, this`seekPts
      ensures Accounted() && View() == CacheSeek(old(View()), i, to, hr)
    {
      hide SwitchRange, SeekStreams, TotalBytes, AdjustTarget, CacheSeek;
      CacheSeekUnfolded(View(), i, to, hr);
      var r, to' := ranges[i], to;
      if !hr {
        to' := AdjustCacheSeekTarget(r, to);
      }
      SeekReaders(r, to');
      // The demuxer has to continue behind the queues that the readers are in.
      if i != |ranges| - 1 {
        SwitchKeepsConfig(View(), i);
        SwitchCurrentRange(i);
        seeking := true;
        seekPts := r.seekEnd - 1.0;
        MarkAllRefreshing();
      }
    }

    // All packets are skipped up to the last one in the queue.
    method MarkAllRefreshing()
      requires Accounted()
      modifies this`streams
      ensures Accounted() && streams == MarkRefreshing(old(streams), cfg)
    {
      hide TotalBytes, QueuesShape;
      ghost var was := streams;
      for n := 0 to |cfg|
        invariant Accounted() && |streams| == |was|
        invariant forall k :: 0 <= k < |was| ==> streams[k] == if k < n then was[k].(refreshing := cfg[k].selected) else was[k]
      {
        streams := streams[n := streams[n].(refreshing := cfg[n].selected)];
      }
      assert streams == MarkRefreshing(was, cfg);
    }

    // queue_seek()
    method SeekTo(to: SeekPoint, hr: bool, cached: bool, seekable: bool) returns (ok: bool)
      requires Valid()
      modifies this`ranges, this`streams, this`totalBytes, this`seeking, this`seekPts
      ensures Valid() && View() == QueueSeek(old(View()), to, hr, cached, seekable)
      ensures !ok ==> View() == old(View())
    {
      hide CacheOk, CacheSeek, FreshRange, TotalBytes;
      ghost var was := View();
      QueueSeekOk(was, to, hr, cached, seekable);
      OkHasShape(QueueSeek(was, to, hr, cached, seekable));
      if to.pts == NOPTS {
        return false;
      }
      var k := FindCacheSeekRange(to.pts);
      if k == |ranges| && (cached || !seekable) {
        return false;
      }
      var ss := streams;
      streams := seq(|ss|, n requires 0 <= n < |ss| =>
        ss[n].(readerHead := None, eof := false, skipToKeyframe := false));
      assert View() == ClearReaders(was);
      if k < |ranges| {
        ExecuteCacheSeek(k, to, hr);
      } else {
        SwitchToFreshCacheRange();
        seeking := true;
        seekPts := to.pts;
      }
      ok := true;
    }

    // The part of read_packet() after a seek to the beginning of the file.
    method MarkBeginning()
      requires Valid()
      modifies this`ranges, this`totalBytes
      ensures Valid() && View() == MarkBofStep(old(View()))
    {
      hide CacheOk;
      MarkBofOk(View());
      MarkQueues();
    }

    method MarkQueues()
      requires Accounted()
      modifies this`ranges, this`totalBytes
      ensures Accounted() && View() == MarkBofStep(old(View()))
    {
      hide TotalBytes, QueueBytes, Marked, QueuesShape, Progress;
      ghost var was := ranges;
      QueueCounts(was, cfg);
      var last := |ranges| - 1;
      ghost var ts := MarkedAll(was[last].queues, cfg, streams);
      ProgressStart(was, last, ts);
      for n := 0 to |cfg|
        invariant Accounted() && ranges == Progress(was, last, ts, n)
      {
        ProgressStep(was, last, ts, n);
        MarkedLengths(ranges, last, n, cfg, streams[n]);
        var q := ranges[last].queues[n];
        StoreQueue(n, q.(isBof := cfg[n].selected && !streams[n].refreshing));
      }
    }

    // The part of execute_seek() that concerns the cache.
    method ExecuteSeek()
      requires Valid()
      modifies this`seeking
      ensures Valid() && View() == Step(old(View()), Op.ExecuteSeek)
    {
      hide CacheOk;
      StepOk(View(), Op.ExecuteSeek);
      seeking := false;
    }

    // The part of update_opts() that concerns the cache.
    method UpdateOptions(opts: Options)
      requires Valid()
      modifies this`opts, this`ranges, this`totalBytes
      ensures Valid() && View() == OptionsStep(old(View()), opts)
    {
      hide CacheOk, Prune, FreeEmpty, TotalBytes;
      OptionsOk(View(), opts);
      StepOk(View(), SetOptions(opts));
      PruneOutcome(View().(opts := opts));
      this.opts := opts;
      // The limits may have become lower, ...
      PruneOldPackets();
      // ... and keeping ranges may have been turned off.
      FreeEmptyCachedRanges();
    }
  }

  // Where a pass over the ranges is: those from n on have been looked at.
  ghost predicate PassState(was: seq<Range>, n: nat, rs: seq<Range>, worst: Option<nat>, seekable: bool) {
    && n < |was|
    && var k := Kept(was[n..|was| - 1], seekable);
    && rs == was[..n] + k + [was[|was| - 1]]
    && worst == if |k| == 0 then None else Some(n + Shortest(k))
  }

  lemma PassStart(was: seq<Range>, seekable: bool)
    requires |was| > 0
    ensures PassState(was, |was| - 1, was, None, seekable)
  {
    assert was == was[..|was| - 1] + [] + [was[|was| - 1]];
  }

  lemma KeptStep(was: seq<Range>, n: nat, seekable: bool)
    requires n < |was| - 1
    ensures Kept(was[n..|was| - 1], seekable)
            == (if Keep(was[n], seekable) then [was[n]] else []) + Kept(was[n + 1..|was| - 1], seekable)
  {
    KeptFirst(was[n..|was| - 1], seekable);
    assert was[n..|was| - 1][1..] == was[n + 1..|was| - 1];
  }

  lemma RemoveMiddle(was: seq<Range>, n: nat, k: seq<Range>, c: Range)
    requires n < |was|
    ensures RemoveAt((was[..n + 1] + k + [was[|was| - 1]])[n := c], n) == was[..n] + k + [was[|was| - 1]]
  {
    var a := (was[..n + 1] + k + [was[|was| - 1]])[n := c];
    assert a[..n] == was[..n];
    assert a[n + 1..] == k + [was[|was| - 1]];
  }

  lemma PassDropped(was: seq<Range>, n: nat, rs: seq<Range>, worst: Option<nat>, seekable: bool, c: Range)
    requires PassState(was, n + 1, rs, worst, seekable) && n < |rs| && !Keep(was[n], seekable)
    ensures PassState(was, n, RemoveAt(rs[n := c], n), if worst.Some? then Some(worst.value - 1) else None, seekable)
  {
    hide Shortest, Kept, Keep, RemoveAt;
    var k := Kept(was[n + 1..|was| - 1], seekable);
    KeptStep(was, n, seekable);
    assert [] + k == k;
    RemoveMiddle(was, n, k, c);
  }

  lemma PassKept(was: seq<Range>, n: nat, rs: seq<Range>, worst: Option<nat>, seekable: bool)
    requires PassState(was, n + 1, rs, worst, seekable) && Keep(was[n], seekable)
    requires n < |rs| && (worst.Some? ==> worst.value < |rs|)
    ensures PassState(was, n, rs, if worst.None? || Length(rs[n]) < Length(rs[worst.value]) then Some(n) else worst, seekable)
  {
    hide Shortest, Kept, Keep;
    var k := Kept(was[n + 1..|was| - 1], seekable);
    KeptStep(was, n, seekable);
    ShortestWith(was[n], k);
    KeptAgain(was, n, k, rs, if |k| > 0 then Shortest(k) else 0);
  }

  lemma KeptAgain(was: seq<Range>, n: nat, k: seq<Range>, rs: seq<Range>, y: nat)
    requires n < |was| && rs == was[..n + 1] + k + [was[|was| - 1]] && (y < |k| || k == [])
    ensures rs == was[..n] + ([was[n]] + k) + [was[|was| - 1]] && n < |rs| && rs[n] == was[n]
    ensures |k| > 0 ==> n + 1 + y < |rs| && rs[n + 1 + y] == k[y]
  {
    assert was[..n + 1] == was[..n] + [was[n]];
    InsertedAt(was[..n], was[n], k, was[|was| - 1], y);
  }

  // The first range is the shortest one if it is shorter than that of the others.
  lemma ShortestWith(r: Range, k: seq<Range>)
    ensures Shortest([r] + k) == if |k| == 0 || Length(r) < Length(k[Shortest(k)]) then 0 else 1 + Shortest(k)
  {
    hide Shortest, Length;
    ShortestFirst([r] + k);
    assert ([r] + k)[1..] == k;
  }

  lemma InsertedAt<T>(a: seq<T>, x: T, k: seq<T>, last: T, y: nat)
    requires y < |k| || k == []
    ensures var rs := (a + [x]) + k + [last];
            && rs == a + ([x] + k) + [last] && |rs| > |a| + |k| && rs[|a|] == x
            && (|k| > 0 ==> rs[|a| + 1 + y] == k[y])
  {
  }

  lemma PassStep(was: seq<Range>, n: nat, rs: seq<Range>, worst: Option<nat>, seekable: bool, c: Range)
    requires PassState(was, n + 1, rs, worst, seekable)
    ensures n < |rs| - 1 && rs[n] == was[n] && (worst.Some? ==> 0 < worst.value < |rs|)
    ensures !Keep(was[n], seekable) ==>
              PassState(was, n, RemoveAt(rs[n := c], n), if worst.Some? then Some(worst.value - 1) else None, seekable)
    ensures Keep(was[n], seekable) ==>
              PassState(was, n, rs, if worst.None? || Length(rs[n]) < Length(rs[worst.value]) then Some(n) else worst, seekable)
  {
    hide Kept, Keep;
    assert rs[n] == was[n];
    assert worst.Some? ==> 0 < worst.value < |rs|;
    if Keep(was[n], seekable) {
      PassKept(was, n, rs, worst, seekable);
    } else {
      PassDropped(was, n, rs, worst, seekable, c);
    }
  }

  lemma PassEnd(was: seq<Range>, rs: seq<Range>, worst: Option<nat>, seekable: bool)
    requires PassState(was, 0, rs, worst, seekable)
    ensures var k := Kept(was[..|was| - 1], seekable);
            rs == k + [was[|was| - 1]] && worst == if |k| == 0 then None else Some(Shortest(k))
  {
    assert was[0..|was| - 1] == was[..|was| - 1];
    assert was[..0] == [];
    var k := Kept(was[..|was| - 1], seekable);
    assert [] + k == k;
  }

  lemma KeptMembers(rs: seq<Range>, seekable: bool)
    ensures forall r :: r in Kept(rs, seekable) ==> Keep(r, seekable)
  {
    KeptIsSubsequence(rs, seekable);
  }

  lemma FreedWereShortest(rs: seq<Range>, seekable: bool)
    requires |rs| > 0
    ensures var e := FreeEmpty(rs, seekable);
            && |e| > 0
            && forall r, s :: r in rs[..|rs| - 1] && r.seekStart != NOPTS && seekable && r !in e[..|e| - 1] && s in e[..|e| - 1]
                 ==> r.seekEnd - r.seekStart <= s.seekEnd - s.seekStart
  {
    EvictionOutcome(rs, seekable);
  }

  lemma EvictUnfolded(rs: seq<Range>, limit: nat)
    ensures Evict(rs, limit) == if |rs| <= limit then rs else Evict(RemoveAt(rs, Shortest(rs)), limit)
  {
  }

  lemma RemoveHeadBytes(q: Queue)
    requires |q.pkts| > 0 && |q.cum| == |q.pkts|
    ensures QueueBytes(RemoveHead(q)) == QueueBytes(q) - HeadBytes(q)
    ensures |RemoveHead(q).cum| == |RemoveHead(q).pkts|
  {
  }

  lemma {:induction false} KeptFirst(rs: seq<Range>, seekable: bool)
    requires |rs| > 0
    ensures Kept(rs, seekable) == (if Keep(rs[0], seekable) then [rs[0]] else []) + Kept(rs[1..], seekable)
    decreases |rs|
  {
    if |rs| > 1 {
      KeptFirst(rs[..|rs| - 1], seekable);
      assert rs[..|rs| - 1][1..] == rs[1..][..|rs| - 2];
    } else {
      assert rs[..0] == [] && rs[1..] == [];
    }
  }

  lemma ShortestFirst(rs: seq<Range>)
    requires |rs| > 0
    ensures Shortest(rs) == if |rs| == 1 || Length(rs[0]) < Length(rs[Shortest(rs[1..]) + 1]) then 0 else Shortest(rs[1..]) + 1
  {
  }

  lemma {:induction false} KeptTwice(rs: seq<Range>, seekable: bool)
    requires forall i :: 0 <= i < |rs| ==> Keep(rs[i], seekable)
    ensures Kept(rs, seekable) == rs
    decreases |rs|
  {
    hide Keep;
    if |rs| > 0 {
      var last := |rs| - 1;
      assert forall i :: 0 <= i < last ==> Keep(rs[..last][i], seekable);
      KeptTwice(rs[..last], seekable);
      assert rs == rs[..last] + [rs[last]];
    }
  }

  lemma {:induction false} KeptAfterClear(rs: seq<Range>, n: nat, c: Range, seekable: bool)
    requires n < |rs| && c.seekStart == NOPTS
    requires forall r :: r in rs ==> Keep(r, seekable)
    ensures Kept(rs[n := c], seekable) == RemoveAt(rs, n)
    decreases |rs|
  {
    var last := |rs| - 1;
    if n == last {
      assert rs[n := c][..last] == rs[..last];
      KeptTwice(rs[..last], seekable);
    } else {
      assert rs[n := c][..last] == rs[..last][n := c];
      KeptAfterClear(rs[..last], n, c, seekable);
      assert RemoveAt(rs, n) == RemoveAt(rs[..last], n) + [rs[last]];
    }
  }

  lemma {:induction false} EmptyBytes(qs: seq<Queue>)
    requires forall n :: 0 <= n < |qs| ==> qs[n] == NewQueue()
    ensures QueuesBytes(qs) == 0
    decreases |qs|
  {
    if |qs| > 0 {
      EmptyBytes(qs[..|qs| - 1]);
    }
  }

  // --- For joining ---

  function Emptied(q: Queue): Queue {
    q.(pkts := [], cum := [], base := q.base + |q.pkts|, kfFirst := None, kfLatest := None, index := [], indexSize := 0)
  }

  // The ranges after queue n was joined.
  function JoinedOne(rs: seq<Range>, i: nat, n: nat): (r: seq<Range>)
    requires i < |rs| - 1 && n < |rs[i].queues| && n < |rs[|rs| - 1].queues|
    ensures |r| == |rs|
  {
    var last := |rs| - 1;
    rs[i := SetQueue(rs[i], n, Emptied(rs[i].queues[n]))]
      [last := SetQueue(rs[last], n, Join(rs[last].queues[n], rs[i].queues[n]))]
  }

  // ... and after the first n queues were.
  function JoinedUpTo(rs: seq<Range>, i: nat, n: nat): (r: seq<Range>)
    requires i < |rs| - 1 && |rs[i].queues| == |rs[|rs| - 1].queues|
    ensures |r| == |rs|
  {
    var last := |rs| - 1;
    var qs1, qs2 := rs[last].queues, rs[i].queues;
    rs[i := rs[i].(queues := seq(|qs2|, k requires 0 <= k < |qs2| => if k < n then Emptied(qs2[k]) else qs2[k]))]
      [last := rs[last].(queues := seq(|qs1|, k requires 0 <= k < |qs1| && |qs1| == |qs2| =>
                                     if k < n then Join(qs1[k], qs2[k]) else qs1[k]))]
  }

  lemma JoinedNone(rs: seq<Range>, i: nat)
    requires i < |rs| - 1 && |rs[i].queues| == |rs[|rs| - 1].queues|
    ensures JoinedUpTo(rs, i, 0) == rs
  {
    hide Join, Emptied;
    var j, last := JoinedUpTo(rs, i, 0), |rs| - 1;
    assert j[i].queues == rs[i].queues;
    assert j[last].queues == rs[last].queues;
  }

  lemma JoinedNext(rs: seq<Range>, i: nat, n: nat)
    requires i < |rs| - 1 && n < |rs[i].queues| == |rs[|rs| - 1].queues|
    ensures var j := JoinedUpTo(rs, i, n);
            && |j[i].queues| == |rs[i].queues| == |j[|j| - 1].queues|
            && j[i].queues[n] == rs[i].queues[n] && j[|j| - 1].queues[n] == rs[|rs| - 1].queues[n]
            && JoinedUpTo(rs, i, n + 1) == JoinedOne(j, i, n)
  {
    hide Join, Emptied;
    var j, j', last := JoinedUpTo(rs, i, n), JoinedUpTo(rs, i, n + 1), |rs| - 1;
    var o := JoinedOne(j, i, n);
    assert j'[i].queues == o[i].queues;
    assert j'[last].queues == o[last].queues;
    forall k | 0 <= k < |rs|
      ensures j'[k] == o[k]
    {
    }
  }

  lemma JoinedOneBytes(rs: seq<Range>, i: nat, n: nat, cfg: seq<StreamConfig>)
    requires i < |rs| - 1 && n < |rs[i].queues| && n < |rs[|rs| - 1].queues|
    requires Consistent(rs[i].queues[n]) && Consistent(rs[|rs| - 1].queues[n])
    ensures var q1, q2 := rs[|rs| - 1].queues[n], rs[i].queues[n];
            TotalBytes(JoinedOne(rs, i, n))
            == TotalBytes(rs) + (Join(q1, q2).indexSize - q1.indexSize) * ENTRY_BYTES - q2.indexSize * ENTRY_BYTES
  {
    var last := |rs| - 1;
    var q1, q2 := rs[last].queues[n], rs[i].queues[n];
    JoinBytes(q1, q2);
    hide Join, Emptied, Consistent, QueueBytes, TotalBytes;
    var rs' := rs[i := SetQueue(rs[i], n, Emptied(q2))];
    TotalAfterSet(rs, i, n, Emptied(q2));
    TotalAfterSet(rs', last, n, Join(q1, q2));
  }

  lemma JoinedOneShape(rs: seq<Range>, i: nat, n: nat, cfg: seq<StreamConfig>)
    requires i < |rs| - 1 && n < |cfg| && (forall r :: 0 <= r < |rs| ==> QueuesShape(rs[r], cfg))
    requires n < |rs[i].queues| && n < |rs[|rs| - 1].queues|
    requires Consistent(rs[i].queues[n]) && Consistent(rs[|rs| - 1].queues[n])
    ensures forall r :: 0 <= r < |rs| ==> QueuesShape(JoinedOne(rs, i, n)[r], cfg)
  {
    var q1, q2 := rs[|rs| - 1].queues[n], rs[i].queues[n];
    JoinBytes(q1, q2);
    hide Join, Consistent, QueuesShape;
    ShapeAfterSet(rs[i], n, Emptied(q2), cfg);
    ShapeAfterSet(rs[|rs| - 1], n, Join(q1, q2), cfg);
  }

  lemma ShapeAfterSet(r: Range, n: nat, q: Queue, cfg: seq<StreamConfig>)
    requires QueuesShape(r, cfg) && n < |cfg| && n < |r.queues| && |q.cum| == |q.pkts|
    ensures QueuesShape(SetQueue(r, n, q), cfg)
  {
  }

  lemma QueueCounts(rs: seq<Range>, cfg: seq<StreamConfig>)
    requires forall r :: 0 <= r < |rs| ==> QueuesShape(rs[r], cfg)
    ensures forall r :: 0 <= r < |rs| ==> |rs[r].queues| == |cfg|
  {
  }

  lemma StreamsNone(qs1: seq<Queue>, qs2: seq<Queue>, cfg: seq<StreamConfig>, ss: seq<Stream>)
    requires |qs1| == |qs2| == |cfg| == |ss|
    ensures ss == JoinStreams(qs1, qs2, cfg, ss)[..0] + ss[0..]
  {
  }

  lemma StreamsNext(qs1: seq<Queue>, qs2: seq<Queue>, cfg: seq<StreamConfig>, ss: seq<Stream>, n: nat)
    requires n < |qs1| == |qs2| == |cfg| == |ss|
    ensures var js := JoinStreams(qs1, qs2, cfg, ss);
            && (js[..n] + ss[n..])[n] == ss[n]
            && (js[..n] + ss[n..])[n := JoinStream(qs1[n], qs2[n], cfg[n], ss[n])] == js[..n + 1] + ss[n + 1..]
  {
    hide JoinStream;
  }

  // The state after an attempt to join the range i with the current one, as
  // long as nothing is freed.
  ghost function Joined(c: State, i: nat): State
    requires c.Shape() && i < c.Last()
  {
    var t := TrimAll(c.ranges[c.Last()].queues, c.ranges[i].queues, c.cfg, c.streams, |c.cfg|);
    if t.Some? && |t.value| == |c.cfg| then JoinWith(c, i, t.value) else c
  }

  lemma AttemptUnfolded(c: State, i: nat)
    requires c.Shape() && i < c.Last() && ChooseNext(c.ranges, c.Last()) == Some(i)
    ensures |Joined(c, i).ranges| == |c.ranges|
    ensures AttemptJoin(c) == FreeEmptyRanges(WithRange(Joined(c, i), i, ClearRange(c.ranges[i], c.cfg)))
    ensures Joined(c, i).cfg == c.cfg && Joined(c, i).opts == c.opts
  {
    hide ChooseNext, TrimAll, ClearRange, FreeEmptyRanges;
  }

  lemma NoneToJoin(c: State)
    requires c.Shape() && ChooseNext(c.ranges, c.Last()).None?
    ensures AttemptJoin(c) == c
  {
    hide ChooseNext;
  }

  lemma JoinedShape(rs: seq<Range>, i: nat, n: nat)
    requires i < |rs| - 1 && |rs[i].queues| == |rs[|rs| - 1].queues| == n
    ensures var j := JoinedUpTo(rs, i, n);
            && j[|j| - 1].queues == JoinAll(rs[|rs| - 1].queues, rs[i].queues)
            && ClearAll(j[i].queues) == ClearAll(rs[i].queues)
            && j[i].seekEnd == rs[i].seekEnd
            && j == rs[i := j[i]][|rs| - 1 := rs[|rs| - 1].(queues := JoinAll(rs[|rs| - 1].queues, rs[i].queues))]
  {
    hide Join;
    var j := JoinedUpTo(rs, i, n);
    assert j[|j| - 1].queues == JoinAll(rs[|rs| - 1].queues, rs[i].queues);
  }

  lemma ClearRangeSame(r: Range, t: Range, cfg: seq<StreamConfig>)
    requires |r.queues| == |t.queues| == |cfg| && ClearAll(r.queues) == ClearAll(t.queues)
    ensures ClearRange(r, cfg) == ClearRange(t, cfg)
  {
  }

  // The joined ranges are those of the specification, but for the next range,
  // which is about to be cleared.
  lemma JoinedOutcome(c: State, i: nat, trimmed: seq<Range>, rs: seq<Range>)
    requires c.Shape() && i < c.Last() && |trimmed| == |c.ranges| && |trimmed[i].queues| == |c.cfg|
    requires trimmed == c.ranges[i := c.ranges[i].(queues := trimmed[i].queues)]
    requires ClearAll(trimmed[i].queues) == ClearAll(c.ranges[i].queues)
    requires var j := JoinedUpTo(trimmed, i, |c.cfg|);
             |j[|j| - 1].queues| == |c.cfg| && rs == j[|j| - 1 := UpdateSeekRanges(j[|j| - 1], c.cfg)]
    ensures rs == JoinWith(c, i, trimmed[i].queues).ranges[i := rs[i]]
    ensures ClearAll(rs[i].queues) == ClearAll(c.ranges[i].queues)
    ensures rs[i].seekEnd == c.ranges[i].seekEnd
  {
    hide ClearAll, JoinedUpTo, JoinAll, UpdateSeekRanges;
    JoinedShape(trimmed, i, |c.cfg|);
  }

  lemma ClearAfterRemove(q: Queue)
    requires |q.pkts| > 0 && |q.cum| == |q.pkts|
    ensures Clear(RemoveHead(q)) == Clear(q)
  {
  }

  lemma RemoveHeadShorter(q: Queue)
    requires |q.pkts| > 0 && |q.cum| == |q.pkts|
    ensures |RemoveHead(q).pkts| < |q.pkts|
  {
  }

  lemma SetSame(rs: seq<Range>, i: nat, n: nat)
    requires i < |rs| && n < |rs[i].queues|
    ensures rs == rs[i := SetQueue(rs[i], n, rs[i].queues[n])]
  {
    assert rs[i].queues[n := rs[i].queues[n]] == rs[i].queues;
  }

  lemma ClearedOne(qs: seq<Queue>, n: nat, q: Queue)
    requires n < |qs| && Clear(q) == Clear(qs[n])
    ensures ClearAll(qs[n := q]) == ClearAll(qs)
  {
  }

  lemma SetAgain(rs: seq<Range>, i: nat, n: nat, q: Queue, q': Queue)
    requires i < |rs| && n < |rs[i].queues|
    ensures var rs1 := rs[i := SetQueue(rs[i], n, q)];
            rs1[i := SetQueue(rs1[i], n, q')] == rs[i := SetQueue(rs[i], n, q')]
  {
    assert rs[i].queues[n := q][n := q'] == rs[i].queues[n := q'];
  }

  // The first n queues are trimmed, the others are as they were.
  ghost predicate TrimmedUpTo(qs: seq<Queue>, qs1: seq<Queue>, qs2: seq<Queue>, cfg: seq<StreamConfig>, ss: seq<Stream>, n: nat)
    requires n <= |qs1| == |qs2| == |cfg| == |ss|
    requires forall i :: 0 <= i < n ==> |qs2[i].cum| == |qs2[i].pkts|
  {
    var t := TrimAll(qs1, qs2, cfg, ss, n);
    t.Some? && |t.value| == n && qs == t.value + qs2[n..]
  }

  lemma TrimmedStart(qs1: seq<Queue>, qs2: seq<Queue>, cfg: seq<StreamConfig>, ss: seq<Stream>)
    requires |qs1| == |qs2| == |cfg| == |ss|
    ensures TrimmedUpTo(qs2, qs1, qs2, cfg, ss, 0)
  {
    assert TrimAll(qs1, qs2, cfg, ss, 0) == Some([]) && [] + qs2[0..] == qs2;
  }

  lemma TrimmedStep(qs: seq<Queue>, qs1: seq<Queue>, qs2: seq<Queue>, cfg: seq<StreamConfig>, ss: seq<Stream>, n: nat)
    requires n < |qs1| == |qs2| == |cfg| == |ss|
    requires forall i :: 0 <= i < |qs2| ==> |qs2[i].cum| == |qs2[i].pkts|
    requires TrimmedUpTo(qs, qs1, qs2, cfg, ss, n)
    ensures |qs| == |qs2| && qs[n] == qs2[n]
    ensures var t := TrimStream(qs1[n], qs2[n], cfg[n], ss[n]);
            if t.Joinable? then TrimmedUpTo(qs[n := t.q], qs1, qs2, cfg, ss, n + 1)
            else TrimAll(qs1, qs2, cfg, ss, |cfg|).None?
  {
    hide TrimStream;
    TrimAllStep(qs1, qs2, cfg, ss, n);
    var t := TrimStream(qs1[n], qs2[n], cfg[n], ss[n]);
    if t.Joinable? {
      TrimmedOne(TrimAll(qs1, qs2, cfg, ss, n).value, qs2, t.q);
    } else {
      TrimAllFails(qs1, qs2, cfg, ss, n + 1, |cfg|);
    }
  }

  lemma TrimmedEnd(qs: seq<Queue>, qs1: seq<Queue>, qs2: seq<Queue>, cfg: seq<StreamConfig>, ss: seq<Stream>)
    requires |qs1| == |qs2| == |cfg| == |ss|
    requires forall i :: 0 <= i < |qs2| ==> |qs2[i].cum| == |qs2[i].pkts|
    requires TrimmedUpTo(qs, qs1, qs2, cfg, ss, |cfg|)
    ensures TrimAll(qs1, qs2, cfg, ss, |cfg|) == Some(qs)
  {
    var t := TrimAll(qs1, qs2, cfg, ss, |cfg|);
    assert qs2[|cfg|..] == [] && t.value + [] == t.value;
  }

  lemma TrimAllStep(qs1: seq<Queue>, qs2: seq<Queue>, cfg: seq<StreamConfig>, ss: seq<Stream>, n: nat)
    requires n < |qs1| == |qs2| == |cfg| == |ss|
    requires forall i :: 0 <= i < |qs2| ==> |qs2[i].cum| == |qs2[i].pkts|
    requires TrimAll(qs1, qs2, cfg, ss, n).Some?
    ensures var t := TrimStream(qs1[n], qs2[n], cfg[n], ss[n]);
            TrimAll(qs1, qs2, cfg, ss, n + 1) == if t.Joinable? then Some(TrimAll(qs1, qs2, cfg, ss, n).value + [t.q]) else None
  {
    hide TrimStream;
  }

  lemma TrimmedOne(done: seq<Queue>, qs: seq<Queue>, q: Queue)
    requires |done| < |qs|
    ensures (done + qs[|done|..])[|done| := q] == done + [q] + qs[|done| + 1..]
  {
  }

  lemma {:induction false} TrimAllFails(qs1: seq<Queue>, qs2: seq<Queue>, cfg: seq<StreamConfig>, ss: seq<Stream>, n: nat, m: nat)
    requires n <= m <= |qs1| == |qs2| == |cfg| == |ss|
    requires forall i :: 0 <= i < m ==> |qs2[i].cum| == |qs2[i].pkts|
    requires TrimAll(qs1, qs2, cfg, ss, n).None?
    ensures TrimAll(qs1, qs2, cfg, ss, m).None?
  {
    if n < m {
      TrimAllFails(qs1, qs2, cfg, ss, n, m - 1);
    }
  }

  // The position that packet k of the joined queue gets, or the end.
  ghost function Recount(q: Queue, start: nat, k: nat): int
    requires |q.cum| == |q.pkts| && k <= |q.pkts|
  {
    if k == 0 then start else start + NextCum(q, k - 1) - q.cum[0]
  }

  lemma RecountStart(q: Queue, start: nat)
    requires CumOk(q)
    ensures |q.cum| == |q.pkts| == |Recounted(q.cum, start)|
    ensures Recount(q, start, 0) == start && Recount(q, start, |q.pkts|) == start + PacketBytes(q)
    ensures Recounted(q.cum, start)[..0] == [] && Recounted(q.cum, start)[..|q.pkts|] == Recounted(q.cum, start)
  {
  }

  lemma RecountStep(q: Queue, start: nat, k: nat)
    requires CumOk(q) && k < |q.pkts|
    ensures |q.cum| == |q.pkts| == |Recounted(q.cum, start)|
    ensures var next := if k + 1 < |q.pkts| then q.cum[k + 1] else q.tailCum;
            next >= q.cum[k] && Recount(q, start, k + 1) == Recount(q, start, k) + next - q.cum[k]
    ensures Recount(q, start, k) >= 0
    ensures Recounted(q.cum, start)[..k + 1] == Recounted(q.cum, start)[..k] + [Recount(q, start, k)]
  {
    CumBounds(q, k);
    assert NextCum(q, k) == q.cum[k] + q.pkts[k].size;
    if k > 0 {
      assert NextCum(q, k - 1) == q.cum[k];
    }
    assert Recounted(q.cum, start)[k] == Recount(q, start, k);
  }

  lemma CumOfConsistent(q: Queue)
    requires Consistent(q)
    ensures CumOk(q)
  {
  }

  lemma RenumberedAt(es: seq<IndexEntry<nat>>, from: nat, to: nat, k: nat)
    requires k < |es|
    ensures var r := Renumber(es, from, to);
            |r| == |es| && r[k] == IndexEntry(es[k].pts, if es[k].pkt >= from then es[k].pkt - from + to else to)
  {
  }

  lemma JoinBytes(q1: Queue, q2: Queue)
    requires Consistent(q1) && Consistent(q2)
    ensures QueueBytes(Join(q1, q2)) + QueueBytes(Emptied(q2))
            == QueueBytes(q1) + QueueBytes(q2) + (Join(q1, q2).indexSize - q1.indexSize) * ENTRY_BYTES - q2.indexSize * ENTRY_BYTES
    ensures |Join(q1, q2).cum| == |Join(q1, q2).pkts|
  {
    JoinConsistent(q1, q2);
  }

  lemma NextQueuesConsistent(c: State, i: nat)
    requires CacheOk(c) && c.Shape() && i < c.Last()
    ensures forall n :: 0 <= n < |c.cfg| ==> Consistent(c.ranges[c.Last()].queues[n])
    ensures var t := TrimAll(c.ranges[c.Last()].queues, c.ranges[i].queues, c.cfg, c.streams, |c.cfg|);
            t.Some? ==> |t.value| == |c.cfg| && forall n :: 0 <= n < |c.cfg| ==> Consistent(t.value[n])
  {
    hide Consistent;
    OkHasShape(c);
    assert forall n :: 0 <= n < |c.cfg| ==> QueueOk(c.ranges[c.Last()].queues[n], c.cfg[n]) && QueueOk(c.ranges[i].queues[n], c.cfg[n]);
    TrimAllOk(c.ranges[c.Last()].queues, c.ranges[i].queues, c.cfg, c.streams, |c.cfg|);
  }

  // --- For adding packets and pruning ---

  lemma LengthsOf(r: Range, n: nat, cfg: seq<StreamConfig>)
    requires QueuesShape(r, cfg) && n < |cfg|
    ensures n < |r.queues| && |r.queues[n].cum| == |r.queues[n].pkts|
  {
  }

  lemma KeyframesOf(c: State, n: nat)
    requires CacheOk(c) && c.Shape() && n < |c.cfg|
    ensures KeyframesOk(c.ranges[c.Last()].queues[n])
  {
    QueueOfOk(c, c.Last(), n);
  }

  // What the specification comes to for a consistent queue.
  lemma AdjustCases(q: Queue, dp: Option<nat>, preroll: real, rangeEnd: real)
    requires KeyframesOk(q) && (dp.Some? ==> q.Has(dp.value))
    ensures q.kfLatest.Some? ==> q.Has(q.kfLatest.value)
    ensures var r := AdjustQueue(q, dp, preroll);
            if (dp.Some? && !q.pkts[dp.value - q.base].keyframe) || q.kfLatest.None? then
              && r == q.(isEof := dp.None?, kfLatest := if dp.Some? && !q.pkts[dp.value - q.base].keyframe then q.kfLatest else dp)
              && NeedsUpdate(q, dp, rangeEnd) == (q.isEof != dp.None?)
            else
              var i := q.kfLatest.value - q.base;
              var kfMin, kfMax := RunMin(q.pkts, i), RunMax(q.pkts, i);
              var starts := kfMin != NOPTS && q.seekStart == NOPTS;
              var later := kfMax != NOPTS && (q.seekEnd == NOPTS || kfMax > q.seekEnd);
              && r == (if kfMin != NOPTS then Index(q, IndexEntry(kfMin, q.kfLatest.value)) else q).(
                        isEof := dp.None?, kfLatest := dp,
                        seekStart := if starts then kfMin + preroll else q.seekStart,
                        seekEnd := if later then kfMax else q.seekEnd)
              && NeedsUpdate(q, dp, rangeEnd)
                 == (q.isEof != dp.None? || starts || (later && (rangeEnd == NOPTS || q.seekEnd <= rangeEnd)))
  {
    hide RunMin, RunMax, AddEntry, SizeAfterAdd, NextKeyframe, AllBelow;
  }

  // The size of the new packet is what the queue grows by.
  lemma AppendBytes(c: State, n: nat, p: Packet)
    requires CacheOk(c) && c.Shape() && n < |c.cfg|
    ensures var q := c.ranges[c.Last()].queues[n];
            && QueueBytes(Append(q, p)) == QueueBytes(q) + p.size
            && |Append(q, p).cum| == |Append(q, p).pkts|
  {
    hide QueueBytes;
    QueueOfOk(c, c.Last(), n);
    AppendConsistent(c.ranges[c.Last()].queues[n], p);
  }

  lemma AdjustKeepsList(q: Queue, dp: Option<nat>, preroll: real)
    ensures var r := AdjustQueue(q, dp, preroll); r.pkts == q.pkts && r.cum == q.cum && r.tailCum == q.tailCum
  {
  }

  lemma RestartLengths(q: Queue, preroll: real)
    ensures var r := Restart(q, preroll);
            && r.pkts == q.pkts && r.cum == q.cum && QueueBytes(r) == QueueBytes(q)
  {
  }

  lemma AdjustUnfolded(c: State, n: nat, dp: Option<nat>)
    requires c.Shape() && n < |c.cfg|
    ensures var r := c.ranges[c.Last()];
            var r' := SetQueue(r, n, AdjustQueue(r.queues[n], dp, c.cfg[n].preroll));
            && QueuesShape(r', c.cfg)
            && AdjustSeekRange(c, n, dp)
               == if !c.opts.seekableCache then c
                  else if NeedsUpdate(r.queues[n], dp, r.seekEnd) && c.cfg[n].eager
                  then AttemptJoin(WithRange(c, c.Last(), UpdateSeekRanges(r', c.cfg)))
                  else WithRange(c, c.Last(), r')
  {
    AdjustKeepsList(c.ranges[c.Last()].queues[n], dp, c.cfg[n].preroll);
    hide NeedsUpdate, AdjustQueue;
    ShapeAfterSet(c.ranges[c.Last()], n, AdjustQueue(c.ranges[c.Last()].queues[n], dp, c.cfg[n].preroll), c.cfg);
  }

  lemma AdjustedStateOk(c: State, n: nat, dp: Option<nat>)
    requires CacheOk(c) && c.Shape() && n < |c.cfg|
    requires var q := c.ranges[c.Last()].queues[n];
             dp.Some? ==> q.Has(dp.value) && AllBelow(q.index, dp.value)
                          && (q.kfLatest.Some? ==> q.kfLatest.value < dp.value)
    ensures var r := c.ranges[c.Last()];
            var r' := UpdateSeekRanges(SetQueue(r, n, AdjustQueue(r.queues[n], dp, c.cfg[n].preroll)), c.cfg);
            CacheOk(WithRange(c, c.Last(), r'))
  {
    hide QueueOk, Consistent, StartOk, UpdateSeekRanges;
    var r := c.ranges[c.Last()];
    assert RangeOk(r, c.cfg) && QueueOk(r.queues[n], c.cfg[n]);
    AdjustQueueOk(r.queues[n], dp, c.cfg[n]);
    var q' := AdjustQueue(r.queues[n], dp, c.cfg[n].preroll);
    AdjustedRangeOk(r, n, q', c.cfg, c.streams);
    UpdatedSpan(SetQueue(r, n, q'), c.cfg);
    CurrentOk(c, UpdateSeekRanges(SetQueue(r, n, q'), c.cfg));
  }

  lemma QueueOfOk(c: State, r: nat, n: nat)
    requires CacheOk(c) && c.Shape() && r < |c.ranges| && n < |c.cfg|
    ensures QueueOk(c.ranges[r].queues[n], c.cfg[n]) && Consistent(c.ranges[r].queues[n])
    ensures r == |c.ranges| - 1 ==> ReaderOk(c.ranges[r].queues[n], c.streams[n])
  {
    hide Consistent;
    OkHasShape(c);
  }

  lemma AppendedIsLast(c: State, n: nat, p: Packet)
    requires CacheOk(c) && c.Shape() && n < |c.cfg|
    ensures var q := AppendPacket(c, n, p).ranges[c.Last()].queues[n];
            && q.Has(q.End() - 1) && AllBelow(q.index, q.End() - 1)
            && (q.kfLatest.Some? ==> q.kfLatest.value < q.End() - 1)
            && q.End() - 1 == c.ranges[c.Last()].queues[n].End()
  {
    QueueOfOk(c, c.Last(), n);
    hide Consistent;
    NewPacketIsLast(c.ranges[c.Last()].queues[n], c.cfg[n]);
  }

  lemma EofStateOk(c: State, n: nat)
    requires CacheOk(c) && c.Shape() && n < |c.cfg|
    ensures var c' := WithStream(c, n, c.streams[n].(eof := true)); CacheOk(c') && c'.Shape()
  {
    hide RangesOk;
    forall i | 0 <= i < |c.streams|
      ensures ReaderOk(c.ranges[c.Last()].queues[i], c.streams[n := c.streams[n].(eof := true)][i])
    {
      assert ReaderOk(c.ranges[c.Last()].queues[i], c.streams[i]);
    }
  }

  // --- For seeking ---

  lemma MovedShape(rs: seq<Range>, i: nat, cfg: seq<StreamConfig>)
    requires i < |rs| && forall r :: 0 <= r < |rs| ==> QueuesShape(rs[r], cfg)
    ensures var t := RemoveAt(rs, i) + [rs[i]];
            |t| == |rs| && forall r :: 0 <= r < |t| ==> QueuesShape(t[r], cfg)
  {
    hide QueuesShape;
    var t := RemoveAt(rs, i) + [rs[i]];
    assert forall r :: 0 <= r < |t| ==> t[r] == if r < i then rs[r] else if r < |rs| - 1 then rs[r + 1] else rs[i];
  }

  lemma MovedRanges(rs: seq<Range>, i: nat)
    requires i < |rs| - 1
    ensures var t := RemoveAt(rs, i) + [rs[i]]; |t| == |rs| && t[|rs| - 2] == rs[|rs| - 1]
  {
  }

  lemma MovedRangesSet(rs: seq<Range>, i: nat, prev: Range)
    requires i < |rs| - 1
    ensures (RemoveAt(rs, i) + [rs[i]])[|rs| - 2 := prev] == rs[..i] + rs[i + 1..|rs| - 1] + [prev] + [rs[i]]
  {
  }

  lemma FreshBytes(rs: seq<Range>, cfg: seq<StreamConfig>)
    requires |rs| > 0 && forall r :: 0 <= r < |rs| ==> QueuesShape(rs[r], cfg)
    ensures var t := rs[..|rs| - 1] + [NewRange(cfg), rs[|rs| - 1]];
            && TotalBytes(t) == TotalBytes(rs)
            && forall r :: 0 <= r < |t| ==> QueuesShape(t[r], cfg)
  {
    var t, r := rs[..|rs| - 1] + [NewRange(cfg), rs[|rs| - 1]], rs[|rs| - 1];
    EmptyBytes(NewRange(cfg).queues);
    assert t[..|t| - 1] == rs[..|rs| - 1] + [NewRange(cfg)];
    assert t[..|t| - 1][..|rs| - 1] == rs[..|rs| - 1];
    assert forall k :: 0 <= k < |t| ==> t[k] == if k < |rs| - 1 then rs[k] else if k == |rs| - 1 then NewRange(cfg) else r;
  }

  // All selected streams first look for the ends of their queues.
  function MarkRefreshing(ss: seq<Stream>, cfg: seq<StreamConfig>): seq<Stream>
    requires |ss| == |cfg|
  {
    seq(|ss|, n requires 0 <= n < |ss| && |ss| == |cfg| => ss[n].(refreshing := cfg[n].selected))
  }

  lemma SwitchUnfolded(c: State, i: nat, rs: seq<Range>, ss: seq<Stream>)
    requires c.Shape() && i < c.Last() && QueuesShape(c.ranges[c.Last()], c.cfg)
    requires var last := TrimRange(c.ranges[c.Last()], c.cfg);
             rs == c.ranges[..i] + c.ranges[i + 1..c.Last()] + [if Unjoinable(c) then ClearRange(last, c.cfg) else last] + [c.ranges[i]]
    requires ss == seq(|c.streams|, k requires 0 <= k < |c.streams| => c.streams[k].(refreshing := false, eof := false))
    ensures SwitchRange(c, i) == FreeEmptyRanges(c.(ranges := rs, streams := ss))
  {
    hide TrimRange, ClearRange, FreeEmpty, Unjoinable;
    assert SwitchRange(c, i).streams == ss;
  }

  lemma SameUnjoinable(c: State, d: State)
    requires c.cfg == d.cfg && c.streams == d.streams && |c.streams| == |c.cfg|
    ensures Unjoinable(c) <==> Unjoinable(d)
  {
  }

  lemma SeekStreamsStep(c: State, r: Range, to: SeekPoint, n: nat)
    requires n < |c.streams| == |c.cfg| == |r.queues|
    ensures var ss := SeekStreams(c, r, to);
            var t := QueueTarget(r.queues[n], c.cfg[n], to.pts, to.forward);
            (ss[..n] + c.streams[n..])[n := c.streams[n].(
              readerHead := if t.Some? then Some(r.queues[n].base + t.value) else None, skipToKeyframe := t.None?)]
            == ss[..n + 1] + c.streams[n + 1..]
  {
    hide QueueTarget;
  }

  lemma CacheSeekUnfolded(c: State, i: nat, to: SeekPoint, hr: bool)
    requires c.Shape() && i < |c.ranges|
    ensures var r := c.ranges[i];
            var c1 := c.(streams := SeekStreams(c, r, if hr then to else AdjustTarget(r, c.cfg, to, 0)));
            && c1.Shape()
            && (i != c.Last() ==> |SwitchRange(c1, i).streams| == |c.cfg|)
            && CacheSeek(c, i, to, hr)
               == if i == c.Last() then c1
                  else SwitchRange(c1, i).(seeking := true, seekPts := r.seekEnd - 1.0,
                                           streams := MarkRefreshing(SwitchRange(c1, i).streams, c.cfg))
  {
    hide AdjustTarget, SeekStreams, SwitchRange;
    var r := c.ranges[i];
    var c1 := c.(streams := SeekStreams(c, r, if hr then to else AdjustTarget(r, c.cfg, to, 0)));
    if i != c.Last() {
      SwitchKeepsConfig(c1, i);
      assert CacheSeek(c, i, to, hr).streams == MarkRefreshing(SwitchRange(c1, i).streams, c.cfg);
    }
  }

  lemma TrimmedShape(r: Range, cfg: seq<StreamConfig>)
    requires QueuesShape(r, cfg)
    ensures var t := TrimRange(r, cfg);
            && t == r.(queues := t.queues) && |t.queues| == |cfg|
            && forall n :: 0 <= n < |cfg| ==> t.queues[n] == TrimNonKeyframes(r.queues[n])
  {
    hide TrimNonKeyframes;
  }

  lemma MarkedLengths(rs: seq<Range>, r: nat, n: nat, cfg: seq<StreamConfig>, s: Stream)
    requires r < |rs| && n < |cfg| && QueuesShape(rs[r], cfg)
    ensures n < |rs[r].queues|
    ensures var q := rs[r].queues[n];
            var m := Marked(q, cfg[n], s);
            |m.cum| == |m.pkts| && m == q.(isBof := cfg[n].selected && !s.refreshing) && QueueBytes(m) == QueueBytes(q)
  {
  }

  // --- Working through the queues of a range one by one ---

  // Range r of rs after its first n queues were replaced by those of ts.
  function Progress(rs: seq<Range>, r: nat, ts: seq<Queue>, n: nat): seq<Range>
    requires r < |rs| && n <= |ts| == |rs[r].queues|
  {
    rs[r := rs[r].(queues := ts[..n] + rs[r].queues[n..])]
  }

  lemma ProgressStart(rs: seq<Range>, r: nat, ts: seq<Queue>)
    requires r < |rs| && |ts| == |rs[r].queues|
    ensures Progress(rs, r, ts, 0) == rs
    ensures Progress(rs, r, ts, |ts|) == rs[r := rs[r].(queues := ts)]
  {
    assert ts[..0] + rs[r].queues[0..] == rs[r].queues;
    assert ts[..|ts|] + rs[r].queues[|ts|..] == ts;
  }

  lemma ProgressStep(rs: seq<Range>, r: nat, ts: seq<Queue>, n: nat)
    requires r < |rs| && n < |ts| == |rs[r].queues|
    ensures var p := Progress(rs, r, ts, n);
            && |p| == |rs| && |p[r].queues| == |ts| && p[r].queues[n] == rs[r].queues[n]
            && p[r := SetQueue(p[r], n, ts[n])] == Progress(rs, r, ts, n + 1)
  {
    var qs := rs[r].queues;
    assert (ts[..n] + qs[n..])[n := ts[n]] == ts[..n + 1] + qs[n + 1..];
  }
}
