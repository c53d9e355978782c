// Where in-cache seeks end up.
//
// A seek to a position inside a range should put every reader on a keyframe run
// that begins early enough. This depends on no queue starting after its range.
// Queues that start at the beginning of the file are the exception: they do not
// restrict the range, since there is nothing before them to miss. So what is
// kept over every run is that a queue that starts after its range does not start
// later than some queue of the stream did at the beginning of the file.

module SeekSoundness {
  import opened Timestamps
  import opened Wrappers
  import opened Packets
  import opened RingIndex
  import opened SeekTarget
  import opened Queues
  import opened Ranges
  import opened Cache
  import opened CacheInvariants
  import opened Pruning
  import opened CacheRuns

  // --- The invariant ---

  // `first` is the latest start the stream's queues had at the beginning of the
  // file.
  ghost predicate QueueCovered(q: Queue, cfg: StreamConfig, rangeStart: real, first: real) {
    Counts(cfg) && q.seekStart != NOPTS ==>
      && (rangeStart != NOPTS ==> q.seekStart <= rangeStart || q.seekStart <= first)
      && (q.isBof ==> q.seekStart <= first)
  }

  ghost predicate Covered(r: Range, cfg: seq<StreamConfig>, first: seq<real>) {
    && |r.queues| == |cfg| == |first|
    && forall n :: 0 <= n < |cfg| ==> QueueCovered(r.queues[n], cfg[n], r.seekStart, first[n])
  }

  ghost predicate AllCovered(rs: seq<Range>, cfg: seq<StreamConfig>, first: seq<real>) {
    forall r :: 0 <= r < |rs| ==> Covered(rs[r], cfg, first)
  }

  ghost predicate SeekSound(c: State, first: seq<real>) {
    |first| == |c.cfg| && AllCovered(c.ranges, c.cfg, first)
  }

  // The starts of the queues that are at the beginning of the file now.
  function FirstStarts(c: State, first: seq<real>): (r: seq<real>)
    ensures |r| == |first|
    ensures forall n :: 0 <= n < |r| ==> r[n] >= first[n]
  {
    seq(|first|, n requires 0 <= n < |first| =>
      if |c.ranges| > 0 && n < |c.ranges[c.Last()].queues| && c.ranges[c.Last()].queues[n].isBof
      then Max(first[n], c.ranges[c.Last()].queues[n].seekStart) else first[n])
  }

  // The two ways in which a queue can get a start at the beginning of the file.
  function StepFirsts(c: State, op: Op, first: seq<real>): (r: seq<real>)
    requires c.Shape()
    ensures |r| == |first|
    ensures forall n :: 0 <= n < |r| ==> r[n] >= first[n]
  {
    match op
    case Deliver(n, p) => if n < |c.cfg| then FirstStarts(AddPacket(c, n, p), first) else first
    case ReachEof(n) => if n < |c.cfg| then FirstStarts(MarkEof(c, n), first) else first
    case MarkBof => FirstStarts(MarkBofStep(c), first)
    case _ => first
  }

  function Firsts(c: State, ops: seq<Op>, first: seq<real>): (r: seq<real>)
    requires CacheOk(c) && c.Shape()
    ensures |r| == |first|
    decreases |ops|
  {
    if |ops| == 0 then first
    else
      StepOk(c, ops[0]);
      Firsts(Step(c, ops[0]), ops[1..], StepFirsts(c, ops[0], first))
  }

  // --- Ranges ---

  lemma UpdateCovered(r: Range, cfg: seq<StreamConfig>, first: seq<real>)
    requires |r.queues| == |cfg| == |first|
    requires forall n :: 0 <= n < |cfg| ==> QueueCovered(r.queues[n], cfg[n], NOPTS, first[n])
    ensures Covered(UpdateSeekRanges(r, cfg), cfg, first)
  {
    UpdatedSpan(r, cfg);
    hide UpdateSeekRanges;
    var u := UpdateSeekRanges(r, cfg);
    forall n | 0 <= n < |cfg|
      ensures QueueCovered(u.queues[n], cfg[n], u.seekStart, first[n])
    {
      assert QueueCovered(r.queues[n], cfg[n], NOPTS, first[n]);
    }
  }

  lemma ClearCovered(r: Range, cfg: seq<StreamConfig>, first: seq<real>)
    requires |r.queues| == |cfg| == |first|
    ensures Covered(ClearRange(r, cfg), cfg, first)
  {
    ClearedHasNoSpan(r, cfg);
  }

  lemma LaterFirsts(rs: seq<Range>, cfg: seq<StreamConfig>, first: seq<real>, later: seq<real>)
    requires AllCovered(rs, cfg, first) && |later| == |first|
    requires forall n :: 0 <= n < |later| ==> later[n] >= first[n]
    ensures AllCovered(rs, cfg, later)
  {
    forall r, n | 0 <= r < |rs| && 0 <= n < |cfg|
      ensures Covered(rs[r], cfg, first) && QueueCovered(rs[r].queues[n], cfg[n], rs[r].seekStart, later[n])
    {
      assert Covered(rs[r], cfg, first) && QueueCovered(rs[r].queues[n], cfg[n], rs[r].seekStart, first[n]);
    }
  }

  // A queue was replaced by one that starts at the same place.
  lemma SameStartCovered(r: Range, n: nat, q: Queue, cfg: seq<StreamConfig>, first: seq<real>)
    requires Covered(r, cfg, first) && n < |cfg|
    requires q.seekStart == r.queues[n].seekStart && (q.isBof ==> r.queues[n].isBof)
    ensures Covered(SetQueue(r, n, q), cfg, first)
  {
    assert QueueCovered(r.queues[n], cfg[n], r.seekStart, first[n]);
  }

  // A queue was replaced, and the span of the range recomputed.
  lemma UpdatedQueueCovered(r: Range, n: nat, q: Queue, cfg: seq<StreamConfig>, first: seq<real>)
    requires Covered(r, cfg, first) && n < |cfg|
    requires Counts(cfg[n]) && q.isBof && q.seekStart != NOPTS ==> q.seekStart <= first[n]
    ensures Covered(UpdateSeekRanges(SetQueue(r, n, q), cfg), cfg, first)
  {
    hide UpdateSeekRanges;
    var r' := SetQueue(r, n, q);
    forall k | 0 <= k < |cfg|
      ensures QueueCovered(r'.queues[k], cfg[k], NOPTS, first[k])
    {
      assert QueueCovered(r.queues[k], cfg[k], r.seekStart, first[k]);
    }
    UpdateCovered(r', cfg, first);
  }

  lemma SetRangeCovered(rs: seq<Range>, i: nat, r: Range, cfg: seq<StreamConfig>, first: seq<real>)
    requires i < |rs| && AllCovered(rs, cfg, first) && Covered(r, cfg, first)
    ensures AllCovered(rs[i := r], cfg, first)
  {
  }

  lemma FreeEmptyCovered(c: State, first: seq<real>)
    requires |c.ranges| > 0 && SeekSound(c, first)
    ensures SeekSound(FreeEmptyRanges(c), first)
    ensures var e := FreeEmptyRanges(c).ranges; |e| > 0 && e[|e| - 1] == c.ranges[|c.ranges| - 1]
  {
    hide Covered;
    var rs, e := c.ranges, FreeEmptyRanges(c).ranges;
    EvictionOutcome(rs, c.opts.seekableCache);
    SubsequenceMembers(e[..|e| - 1], rs[..|rs| - 1]);
    forall r | 0 <= r < |e|
      ensures exists i :: 0 <= i < |rs| && rs[i] == e[r]
    {
      if r < |e| - 1 {
        assert e[r] in e[..|e| - 1] && e[r] in rs[..|rs| - 1];
      } else {
        assert rs[|rs| - 1] == e[r];
      }
    }
  }

  // --- Joining ---

  lemma JoinKeepsStart(q1: Queue, q2: Queue)
    ensures Join(q1, q2).seekStart == q1.seekStart && Join(q1, q2).isBof == q1.isBof
  {
    hide AddEntries, SizeAfterEntries, Renumber, Recounted;
  }

  // The queues of the current range start where they started.
  ghost predicate SameStarts(c: State, c': State) {
    && |c.ranges| > 0 && |c'.ranges| > 0 && c'.cfg == c.cfg
    && var qs, qs' := c.ranges[c.Last()].queues, c'.ranges[c'.Last()].queues;
       |qs'| == |qs| && forall n :: 0 <= n < |qs| ==> qs'[n].seekStart == qs[n].seekStart && qs'[n].isBof == qs[n].isBof
  }

  lemma DiscardCovered(c: State, i: nat, first: seq<real>)
    requires SeekSound(c, first) && i < |c.ranges| - 1 && |c.ranges[i].queues| == |c.cfg|
    ensures var d := FreeEmptyRanges(WithRange(c, i, ClearRange(c.ranges[i], c.cfg)));
            SeekSound(d, first) && SameStarts(c, d)
  {
    hide Covered, FreeEmptyRanges, ClearRange;
    ClearCovered(c.ranges[i], c.cfg, first);
    SetRangeCovered(c.ranges, i, ClearRange(c.ranges[i], c.cfg), c.cfg, first);
    FreeEmptyCovered(WithRange(c, i, ClearRange(c.ranges[i], c.cfg)), first);
    assert FreeEmptyRanges(WithRange(c, i, ClearRange(c.ranges[i], c.cfg))).cfg == c.cfg by {
      FreeEmptyKeepsConfig(WithRange(c, i, ClearRange(c.ranges[i], c.cfg)));
    }
  }

  lemma FreeEmptyKeepsConfig(c: State)
    requires |c.ranges| > 0
    ensures FreeEmptyRanges(c).cfg == c.cfg && FreeEmptyRanges(c).streams == c.streams
  {
  }

  lemma JoinWithCovered(c: State, i: nat, qs2: seq<Queue>, first: seq<real>)
    requires SeekSound(c, first) && c.Shape() && i < c.Last() && |qs2| == |c.cfg|
    ensures SeekSound(JoinWith(c, i, qs2), first) && SameStarts(c, JoinWith(c, i, qs2))
  {
    hide UpdateSeekRanges, Join, QueueCovered;
    var cur := c.ranges[c.Last()];
    var joined := cur.(queues := JoinAll(cur.queues, qs2));
    assert Covered(cur, c.cfg, first);
    forall n | 0 <= n < |c.cfg|
      ensures joined.queues[n].seekStart == cur.queues[n].seekStart && joined.queues[n].isBof == cur.queues[n].isBof
      ensures QueueCovered(joined.queues[n], c.cfg[n], NOPTS, first[n])
    {
      JoinKeepsStart(cur.queues[n], qs2[n]);
      assert QueueCovered(cur.queues[n], c.cfg[n], cur.seekStart, first[n]);
      StillCovered(cur.queues[n], joined.queues[n], c.cfg[n], cur.seekStart, first[n]);
    }
    UpdateCovered(joined, c.cfg, first);
    UpdatedSpan(joined, c.cfg);
    SetRangeCovered(c.ranges, c.Last(), UpdateSeekRanges(joined, c.cfg), c.cfg, first);
  }

  lemma StillCovered(q: Queue, r: Queue, cfg: StreamConfig, rangeStart: real, first: real)
    requires QueueCovered(q, cfg, rangeStart, first) && r.seekStart == q.seekStart && (r.isBof ==> q.isBof)
    ensures QueueCovered(r, cfg, rangeStart, first) && QueueCovered(r, cfg, NOPTS, first)
  {
  }

  lemma AttemptJoinCovered(c: State, first: seq<real>)
    requires SeekSound(c, first) && c.Shape()
    ensures SeekSound(AttemptJoin(c), first) && SameStarts(c, AttemptJoin(c))
  {
    hide SeekSound, JoinWith, FreeEmptyRanges;
    NextIsNotCurrent(c.ranges, c.Last());
    var next := ChooseNext(c.ranges, c.Last());
    if next.Some? {
      var i, cur := next.value, c.ranges[c.Last()];
      var qs2 := TrimAll(cur.queues, c.ranges[i].queues, c.cfg, c.streams, |c.cfg|);
      if qs2.Some? && |qs2.value| == |c.cfg| {
        JoinWithCovered(c, i, qs2.value, first);
        JoinWithKeeps(c, i, qs2.value);
        DiscardCovered(JoinWith(c, i, qs2.value), i, first);
      } else {
        DiscardCovered(c, i, first);
      }
    }
  }

  // --- Adding packets, EOF ---

  lemma AdjustSeekRangeCovered(c: State, n: nat, dp: Option<nat>, first: seq<real>)
    requires SeekSound(c, first) && c.Shape() && n < |c.cfg|
    ensures var c' := AdjustSeekRange(c, n, dp); SeekSound(c', FirstStarts(c', first))
  {
    hide AttemptJoin, LatestMin, LatestMax, UpdateSeekRanges, QueueCovered, AllCovered;
    var c' := AdjustSeekRange(c, n, dp);
    var later := FirstStarts(c', first);
    if !c.opts.seekableCache {
      LaterFirsts(c.ranges, c.cfg, first, later);
    } else {
      var r := c.ranges[c.Last()];
      var q := r.queues[n];
      var q' := AdjustQueue(q, dp, c.cfg[n].preroll);
      assert Covered(r, c.cfg, first) by { CurrentCovered(c, first); }
      if NeedsUpdate(q, dp, r.seekEnd) && c.cfg[n].eager {
        AdjustedCovered(c, n, q', first);
      } else {
        if Starts(q, dp) {
          NotCounting(r, n, q', c.cfg, first);
        } else {
          SameStartCovered(r, n, q', c.cfg, first);
        }
        SetRangeCovered(c.ranges, c.Last(), SetQueue(r, n, q'), c.cfg, first);
        LaterFirsts(c'.ranges, c.cfg, first, later);
      }
    }
  }

  lemma CurrentCovered(c: State, first: seq<real>)
    requires SeekSound(c, first) && |c.ranges| > 0
    ensures Covered(c.ranges[c.Last()], c.cfg, first)
  {
  }

  lemma NotCounting(r: Range, n: nat, q: Queue, cfg: seq<StreamConfig>, first: seq<real>)
    requires Covered(r, cfg, first) && n < |cfg| && !Counts(cfg[n])
    ensures Covered(SetQueue(r, n, q), cfg, first)
  {
  }

  // The queue may have got a start, and if it is at the beginning of the file,
  // that is where it counts as a first one.
  lemma AdjustedCovered(c: State, n: nat, q: Queue, first: seq<real>)
    requires SeekSound(c, first) && c.Shape() && n < |c.cfg| && |q.cum| == |q.pkts|
    ensures var c1 := WithRange(c, c.Last(), UpdateSeekRanges(SetQueue(c.ranges[c.Last()], n, q), c.cfg));
            c1.Shape() && SeekSound(AttemptJoin(c1), FirstStarts(AttemptJoin(c1), first))
  {
    hide AttemptJoin, UpdateSeekRanges, QueueCovered, AllCovered;
    var r := c.ranges[c.Last()];
    var u := UpdateSeekRanges(SetQueue(r, n, q), c.cfg);
    UpdatedSpan(SetQueue(r, n, q), c.cfg);
    var c1 := WithRange(c, c.Last(), u);
    var later := FirstStarts(c1, first);
    LaterFirsts(c.ranges, c.cfg, first, later);
    CurrentCovered(c, later);
    UpdatedQueueCovered(r, n, q, c.cfg, later);
    SetRangeCovered(c.ranges, c.Last(), u, c.cfg, later);
    AttemptJoinCovered(c1, later);
    assert FirstStarts(AttemptJoin(c1), first) == later;
  }

  lemma AddPacketCovered(c: State, n: nat, p: Packet, first: seq<real>)
    requires SeekSound(c, first) && c.Shape() && n < |c.cfg|
    ensures SeekSound(AddPacket(c, n, p), FirstStarts(AddPacket(c, n, p), first))
  {
    hide AdjustSeekRange, StillRefreshing, Covered;
    var c' := AddPacket(c, n, p);
    if !(p.len == 0 || !c.cfg[n].selected || c.seeking) && !c.streams[n].refreshing {
      AppendShape(c, n, p);
      var r := c.ranges[c.Last()];
      CurrentCovered(c, first);
      SameStartCovered(r, n, Append(r.queues[n], Stored(p, c.cfg[n])), c.cfg, first);
      SetRangeCovered(c.ranges, c.Last(), SetQueue(r, n, Append(r.queues[n], Stored(p, c.cfg[n]))), c.cfg, first);
      AdjustSeekRangeCovered(AppendPacket(c, n, p), n, Some(r.queues[n].End()), first);
    } else {
      LaterFirsts(c.ranges, c.cfg, first, FirstStarts(c', first));
    }
  }

  lemma MarkEofCovered(c: State, n: nat, first: seq<real>)
    requires SeekSound(c, first) && c.Shape() && n < |c.cfg|
    ensures SeekSound(MarkEof(c, n), FirstStarts(MarkEof(c, n), first))
  {
    hide AdjustSeekRange, Covered;
    if c.streams[n].eof {
      LaterFirsts(c.ranges, c.cfg, first, FirstStarts(c, first));
    } else {
      AdjustSeekRangeCovered(WithStream(c, n, c.streams[n].(eof := true)), n, None, first);
    }
  }

  lemma MarkBofCovered(c: State, first: seq<real>)
    requires SeekSound(c, first) && c.Shape()
    ensures SeekSound(MarkBofStep(c), FirstStarts(MarkBofStep(c), first))
  {
    hide AllCovered;
    var r, c' := c.ranges[c.Last()], MarkBofStep(c);
    var later, r' := FirstStarts(c', first), c'.ranges[c.Last()];
    CurrentCovered(c, first);
    forall n | 0 <= n < |c.cfg|
      ensures QueueCovered(r'.queues[n], c.cfg[n], r'.seekStart, later[n])
    {
      assert QueueCovered(r.queues[n], c.cfg[n], r.seekStart, first[n]);
    }
    LaterFirsts(c.ranges, c.cfg, first, later);
    SetRangeCovered(c.ranges, c.Last(), r', c.cfg, later);
  }

  // --- Pruning ---

  lemma PrunedRangeCovered(r: Range, n: nat, reader: Option<nat>, seekable: bool, cfg: seq<StreamConfig>, first: seq<real>)
    requires Covered(r, cfg, first) && n < |cfg| && |r.queues[n].cum| == |r.queues[n].pkts| && Prunable(r.queues[n], reader)
    ensures Covered(PrunedRange(r, n, PruneQueue(r.queues[n], reader, seekable, cfg[n].preroll), cfg), cfg, first)
  {
    hide PruneQueue, UpdateSeekRanges;
    var p := PruneQueue(r.queues[n], reader, seekable, cfg[n].preroll);
    PrunedIsNotBof(r.queues[n], reader, seekable, cfg[n].preroll);
    if !p.kfPruned {
      SameStartCovered(r, n, p.q, cfg, first);
    } else {
      UpdatedQueueCovered(r, n, p.q, cfg, first);
      if !StartMoved(r, p.q) {
        assert QueueCovered(p.q, cfg[n], r.seekStart, first[n]);
      }
    }
  }

  lemma PruneStreamCovered(c: State, n: nat, first: seq<real>)
    requires SeekSound(c, first) && c.Shape() && n < |c.cfg| && Prunable(c.ranges[0].queues[n], ReaderIn(c, 0, n))
    ensures SeekSound(PruneStream(c, n), first)
  {
    hide PrunedRange, PruneQueue, FreeEmptyRanges, Covered;
    var r, reader := c.ranges[0], ReaderIn(c, 0, n);
    assert Covered(r, c.cfg, first);
    var p := PruneQueue(r.queues[n], reader, c.opts.seekableCache, c.cfg[n].preroll);
    PruneStreamUnfolded(c, n);
    PrunedRangeCovered(r, n, reader, c.opts.seekableCache, c.cfg, first);
    SetRangeCovered(c.ranges, 0, PrunedRange(r, n, p, c.cfg), c.cfg, first);
    FreeEmptyCovered(WithRange(c, 0, PrunedRange(r, n, p, c.cfg)), first);
    FreeEmptyKeepsConfig(WithRange(c, 0, PrunedRange(r, n, p, c.cfg)));
  }

  lemma {:induction false} PruneCovered(c: State, first: seq<real>)
    requires CacheOk(c) && c.Shape() && SeekSound(c, first)
    ensures SeekSound(Prune(c), first)
    decreases TotalPackets(c.ranges)
  {
    hide CacheOk, SeekSound, Earliest, PruneStream, WithinBudget;
    if !WithinBudget(c) {
      var n := Earliest(c, 0, None);
      EarliestIsPrunable(c, 0, None);
      if n.Some? {
        PruneStreamOk(c, n.value);
        PruneStreamShrinks(c, n.value);
        PruneStreamCovered(c, n.value, first);
        PruneCovered(PruneStream(c, n.value), first);
      }
    }
  }

  // --- Seeking ---

  lemma {:induction false} TrimKeepsStart(q: Queue)
    requires |q.cum| == |q.pkts|
    ensures var t := TrimNonKeyframes(q); t.seekStart == q.seekStart && (t.isBof ==> q.isBof)
    decreases |q.pkts|
  {
    if |q.pkts| > 0 && !q.pkts[0].keyframe {
      TrimKeepsStart(RemoveHead(q));
    }
  }

  lemma TrimRangeCovered(r: Range, cfg: seq<StreamConfig>, first: seq<real>)
    requires QueuesShape(r, cfg) && Covered(r, cfg, first)
    ensures Covered(TrimRange(r, cfg), cfg, first)
  {
    var t := TrimRange(r, cfg);
    forall n | 0 <= n < |cfg|
      ensures QueueCovered(t.queues[n], cfg[n], t.seekStart, first[n])
    {
      TrimKeepsStart(r.queues[n]);
      StillCovered(r.queues[n], t.queues[n], cfg[n], r.seekStart, first[n]);
    }
  }

  lemma SwitchRangeCovered(c: State, i: nat, first: seq<real>)
    requires c.Shape() && i < c.Last() && SeekSound(c, first)
    ensures SeekSound(SwitchRange(c, i), first)
  {
    hide Covered, TrimRange, ClearRange, Unjoinable;
    var last := c.ranges[c.Last()];
    CurrentCovered(c, first);
    TrimRangeCovered(last, c.cfg, first);
    var prev := TrimRange(last, c.cfg);
    TrimKeepsCount(last, c.cfg);
    ClearCovered(prev, c.cfg, first);
    var prev' := if Unjoinable(c) then ClearRange(prev, c.cfg) else prev;
    var rs := c.ranges[..i] + c.ranges[i + 1..c.Last()] + [prev'] + [c.ranges[i]];
    forall r | 0 <= r < |rs|
      ensures Covered(rs[r], c.cfg, first)
    {
      assert rs[r] == if r < i then c.ranges[r] else if r < c.Last() - 1 then c.ranges[r + 1]
                      else if r == c.Last() - 1 then prev' else c.ranges[i];
    }
    FreeEmptyCovered(c.(ranges := rs), first);
  }

  lemma TrimKeepsCount(r: Range, cfg: seq<StreamConfig>)
    requires QueuesShape(r, cfg)
    ensures |TrimRange(r, cfg).queues| == |r.queues|
  {
  }

  lemma CacheSeekCovered(c: State, i: nat, to: SeekPoint, hr: bool, first: seq<real>)
    requires c.Shape() && i < |c.ranges| && SeekSound(c, first)
    ensures SeekSound(CacheSeek(c, i, to, hr), first)
  {
    hide Covered, SeekStreams, SwitchRange, AdjustTarget;
    var r := c.ranges[i];
    var to' := if hr then to else AdjustTarget(r, c.cfg, to, 0);
    var c1 := c.(streams := SeekStreams(c, r, to'));
    if i != c.Last() {
      SwitchRangeCovered(c1, i, first);
      SwitchKeepsConfig(c1, i);
    }
  }

  lemma FreshRangeCovered(c: State, first: seq<real>)
    requires c.Shape() && SeekSound(c, first)
    ensures SeekSound(FreshRange(c), first)
  {
    hide Covered, SwitchRange, ClearRange;
    var last := c.ranges[c.Last()];
    if !c.opts.seekableCache {
      ClearCovered(last, c.cfg, first);
      SetRangeCovered(c.ranges, c.Last(), ClearRange(last, c.cfg), c.cfg, first);
    } else {
      assert Covered(NewRange(c.cfg), c.cfg, first) by { NewRangeCovered(c.cfg, first); }
      SwitchRangeCovered(c.(ranges := c.ranges[..c.Last()] + [NewRange(c.cfg), last]), c.Last(), first);
    }
  }

  lemma NewRangeCovered(cfg: seq<StreamConfig>, first: seq<real>)
    requires |first| == |cfg|
    ensures Covered(NewRange(cfg), cfg, first)
  {
  }

  lemma QueueSeekCovered(c: State, to: SeekPoint, hr: bool, cached: bool, seekable: bool, first: seq<real>)
    requires c.Shape() && SeekSound(c, first)
    ensures SeekSound(QueueSeek(c, to, hr, cached, seekable), first)
  {
    hide CacheSeek, FreshRange, AllCovered;
    var k := if c.opts.seekableCache then FindCacheRange(c, to.pts, 0) else |c.ranges|;
    if to.pts == NOPTS {
    } else if k < |c.ranges| {
      CacheSeekCovered(ClearReaders(c), k, to, hr, first);
    } else if !(cached || !seekable) {
      FreshRangeCovered(ClearReaders(c), first);
    }
  }

  // --- Runs ---

  lemma StepSound(c: State, op: Op, first: seq<real>)
    requires CacheOk(c) && c.Shape() && SeekSound(c, first)
    ensures SeekSound(Step(c, op), StepFirsts(c, op, first))
  {
    hide CacheOk, AllCovered, AddPacket, MarkEof, Prune, QueueSeek, FreeEmptyRanges, Advance, FirstStarts;
    match op {
      case Deliver(n, p) =>
        if n < |c.cfg| {
          AddPacketOk(c, n, p);
          OkHasShape(AddPacket(c, n, p));
          AddPacketCovered(c, n, p, first);
          PruneCovered(AddPacket(c, n, p), StepFirsts(c, op, first));
        }
      case ReachEof(n) =>
        if n < |c.cfg| {
          MarkEofCovered(c, n, first);
        }
      case Read(n) =>
        if n < |c.cfg| {
          ReadOk(c, n);
          PruneCovered(WithStream(c, n, Advance(c.ranges[c.Last()].queues[n], c.streams[n])), first);
        }
      case Seek(to, hr, cached, seekable) =>
        QueueSeekCovered(c, to, hr, cached, seekable, first);
      case MarkBof =>
        MarkBofCovered(c, first);
      case ExecuteSeek =>
      case SetOptions(opts) =>
        OptionsOk(c, opts);
        PruneOutcome(c.(opts := opts));
        PruneCovered(c.(opts := opts), first);
        FreeEmptyCovered(Prune(c.(opts := opts)), first);
        FreeEmptyKeepsConfig(Prune(c.(opts := opts)));
    }
  }

  // Over every run, no queue starts later than its range, or else not later than
  // the stream did at the beginning of the file.
  lemma {:induction false} RunKeepsSound(c: State, ops: seq<Op>, first: seq<real>)
    requires CacheOk(c) && c.Shape() && SeekSound(c, first)
    ensures SeekSound(Run(c, ops), Firsts(c, ops, first))
    decreases |ops|
  {
    hide CacheOk, SeekSound, Step, StepFirsts;
    if |ops| > 0 {
      StepOk(c, ops[0]);
      StepSound(c, ops[0], first);
      RunKeepsSound(Step(c, ops[0]), ops[1..], StepFirsts(c, ops[0], first));
    }
  }

  lemma InitialSound(cfg: seq<StreamConfig>, opts: Options)
    ensures SeekSound(Initial(cfg, opts), seq(|cfg|, n => NOPTS))
  {
    NewRangeCovered(cfg, seq(|cfg|, n => NOPTS));
  }

  // --- What it is good for: in-cache seeks ---

  // A backward seek in a queue finds a run that starts early enough, if the
  // position is not before the start of the queue. If it is, the seek goes to
  // the first run there is, which starts no later than the queue.
  lemma QueueSeekIsSound(q: Queue, cfg: StreamConfig, pts: real, pos: real)
    requires QueueOk(q, cfg) && q.seekStart != NOPTS && NonDecreasing(q.pkts)
    requires pos >= q.seekStart && pos >= pts
    ensures var t := QueueTarget(q, cfg, pts, false);
            && t.Some? && Candidate(q.pkts, t.value)
            && RunMin(q.pkts, t.value) <= pos - cfg.preroll
            && (RunMin(q.pkts, t.value) <= pts - cfg.preroll || NoCandidate(q.pkts, 0, t.value))
  {
    hide RunMin, CumOk, KeyframesOk, IndexOk, SizeOk, Scan, FindSeekTarget;
    var k: nat :| Candidate(q.pkts, k) && RunMin(q.pkts, k) <= q.seekStart - cfg.preroll;
    IndexRefinesBackwardScan(q.pkts, q.base, q.index, cfg.preroll, pts);
    BackwardScanFinds(q.pkts, 0, pts - cfg.preroll);
  }

  // The first run of a queue that lost nothing but packets before the first
  // keyframe of the stream is the first run of the stream.
  lemma FirstRunOfStream(s: seq<Packet>, lo: nat, hi: nat, t: nat)
    requires lo <= hi <= |s| && (forall k :: 0 <= k < lo ==> !s[k].keyframe)
    requires Candidate(s[lo..hi], t) && NoCandidate(s[lo..hi], 0, t)
    ensures NoCandidate(s, 0, lo + t)
  {
    hide RunMin;
    var q, p := s[lo..hi], s[..hi];
    assert p[lo..] == q && p + s[hi..] == s;
    forall k | 0 <= k < lo + t
      ensures !Candidate(s, k)
    {
      if k >= lo && s[k].keyframe {
        RunAfterDrop(p, lo, k);
        AfterRunNotPast(q, k - lo, t);
        RunAfterAppend(p, s[hi..], k);
        assert !Candidate(q, k - lo);
      }
    }
  }

  // The first selected video stream, from stream n on.
  function VideoStream(cfg: seq<StreamConfig>, n: nat): (v: nat)
    requires n <= |cfg|
    ensures n <= v <= |cfg|
    ensures v < |cfg| ==> cfg[v].selected && cfg[v].video
    decreases |cfg| - n
  {
    if n == |cfg| || (cfg[n].selected && cfg[n].video) then n else VideoStream(cfg, n + 1)
  }

  lemma {:induction false} AdjustTargetIs(r: Range, cfg: seq<StreamConfig>, to: SeekPoint, n: nat)
    requires n <= |r.queues| == |cfg|
    ensures var v := VideoStream(cfg, n);
            AdjustTarget(r, cfg, to, n) ==
            if v == |cfg| then to
            else
              var t := QueueTarget(r.queues[v], cfg[v], to.pts, to.forward);
              if t.None? || t.value >= |r.queues[v].pkts| || RunMin(r.queues[v].pkts, t.value) == NOPTS then to
              else SeekPoint(RunMin(r.queues[v].pkts, t.value), false)
    decreases |cfg| - n
  {
    hide QueueTarget, RunMin;
    if n < |cfg| && !(cfg[n].selected && cfg[n].video) {
      AdjustTargetIs(r, cfg, to, n + 1);
    }
  }

  // A backward scan finds the last run at or before the position.
  lemma LastAtMostOrFirst(s: seq<Packet>, pts: real)
    requires NonDecreasing(s)
    ensures var r := Scan(s, 0, pts, false, None);
            forall k: nat :: Candidate(s, k) && RunMin(s, k) <= pts ==> r.Some? && k <= r.value
  {
    hide RunMin;
    forall k: nat | Candidate(s, k) && RunMin(s, k) <= pts
      ensures var r := Scan(s, 0, pts, false, None); r.Some? && k <= r.value
    {
      BackwardReaches(s, 0, k, pts, None);
      BackwardScanImproves(s, RunEnd(s, k), pts, k);
    }
  }

  // The scan for the start of the run that a scan found. It takes the preroll
  // off again, and of runs that start at the same time it finds the last one.
  ghost predicate FindsAgain(s: seq<Packet>, preroll: real, pts: real, t: nat)
    requires t < |s|
  {
    if preroll == 0.0
    then RunMin(s, t) <= pts || (forall k: nat :: k > t && Candidate(s, k) ==> RunMin(s, k) > RunMin(s, t))
    else NoCandidate(s, 0, t)
  }

  lemma ScanAgainIff(s: seq<Packet>, preroll: real, pts: real, t: nat)
    requires NonDecreasing(s) && preroll >= 0.0 && Scan(s, 0, pts - preroll, false, None) == Some(t)
    ensures Candidate(s, t)
    ensures Scan(s, 0, RunMin(s, t) - preroll, false, None) == Some(t) <==> FindsAgain(s, preroll, pts, t)
  {
    hide RunMin, Scan;
    BackwardScanFinds(s, 0, pts - preroll);
    LastAtMostOrFirst(s, pts - preroll);
    var again := RunMin(s, t) - preroll;
    BackwardScanFinds(s, 0, again);
    LastAtMostOrFirst(s, again);
  }

  // A seek goes to the start of the run that was found for the video stream, so
  // that stream is searched twice, on the assumption that both searches give the
  // same result. They do if and only if the second one can do without preroll.
  lemma AdjustedVideoTargetIff(q: Queue, cfg: StreamConfig, pts: real)
    requires QueueOk(q, cfg) && NonDecreasing(q.pkts) && cfg.preroll >= 0.0
    requires QueueTarget(q, cfg, pts, false).Some?
    ensures var t := QueueTarget(q, cfg, pts, false).value;
            && Candidate(q.pkts, t)
            && (QueueTarget(q, cfg, RunMin(q.pkts, t), false) == Some(t) <==> FindsAgain(q.pkts, cfg.preroll, pts, t))
  {
    hide RunMin, Scan, FindsAgain, NonDecreasing, CumOk, KeyframesOk, IndexOk, SizeOk, StartOk, FindSeekTarget;
    var t := QueueTarget(q, cfg, pts, false).value;
    IndexRefinesBackwardScan(q.pkts, q.base, q.index, cfg.preroll, pts);
    ScanAgainIff(q.pkts, cfg.preroll, pts, t);
    IndexRefinesBackwardScan(q.pkts, q.base, q.index, cfg.preroll, RunMin(q.pkts, t));
  }

  ghost predicate SeekableQueue(q: Queue, cfg: StreamConfig) {
    Counts(cfg) && q.seekStart != NOPTS && NonDecreasing(q.pkts)
  }

  // A queue that starts after its range is no obstacle to positions where the
  // stream had started at the beginning of the file.
  ghost predicate NotLate(pos: real, r: Range, n: nat, first: real)
    requires n < |r.queues|
  {
    pos >= r.seekStart && (r.queues[n].seekStart > r.seekStart ==> pos >= first)
  }

  // The position is not before any start that could be in the way.
  ghost predicate NotBefore(pos: real, to: SeekPoint, r: Range, cfg: seq<StreamConfig>, n: nat, hr: bool, first: seq<real>)
    requires n < |first| == |cfg| == |r.queues|
  {
    && pos >= to.pts && NotLate(pos, r, n, first[n])
    && (!hr ==> var v := VideoStream(cfg, 0); v < |cfg| ==> NotLate(pos, r, v, first[v]))
  }

  lemma CoveredStart(r: Range, cfg: seq<StreamConfig>, n: nat, first: seq<real>, pos: real)
    requires Covered(r, cfg, first) && n < |cfg| && r.seekStart != NOPTS && SeekableQueue(r.queues[n], cfg[n])
    requires NotLate(pos, r, n, first[n])
    ensures pos >= r.queues[n].seekStart
  {
    assert QueueCovered(r.queues[n], cfg[n], r.seekStart, first[n]);
  }

  lemma AdjustedNotAfter(r: Range, cfg: seq<StreamConfig>, n: nat, to: SeekPoint, first: seq<real>, pos: real)
    requires RangeOk(r, cfg) && Covered(r, cfg, first) && n < |cfg| && r.seekStart != NOPTS && !to.forward
    requires NotBefore(pos, to, r, cfg, n, false, first)
    requires var v := VideoStream(cfg, 0); v < |cfg| ==> SeekableQueue(r.queues[v], cfg[v]) && cfg[v].preroll >= 0.0
    ensures var to' := AdjustTarget(r, cfg, to, 0); !to'.forward && to'.pts <= pos
  {
    hide RunMin, QueueTarget, Covered, QueueOk, NonDecreasing;
    var v := VideoStream(cfg, 0);
    AdjustTargetIs(r, cfg, to, 0);
    if v < |cfg| {
      assert QueueOk(r.queues[v], cfg[v]);
      CoveredStart(r, cfg, v, first, pos);
      QueueSeekIsSound(r.queues[v], cfg[v], to.pts, pos);
    }
  }

  // The reader is at a run that starts at or before a position; it can only
  // start later than pts if there is none before it.
  ghost predicate ReaderOn(q: Queue, reader: Option<nat>, preroll: real, pts: real, pos: real, t: nat) {
    && reader == Some(q.base + t)
    && Candidate(q.pkts, t) && RunMin(q.pkts, t) <= pos - preroll
    && (RunMin(q.pkts, t) <= pts - preroll || NoCandidate(q.pkts, 0, t))
  }

  ghost predicate Found(q: Queue, reader: Option<nat>, preroll: real, pts: real, pos: real) {
    exists t: nat :: ReaderOn(q, reader, preroll, pts, pos, t)
  }

  // A backward seek in the cache makes its range the current one, and puts the
  // reader of every queue that counts on a run that starts at or before the
  // position (less the preroll). The run can only start later than the adjusted
  // position if it is the first one of the queue.
  lemma CacheSeekIsSound(c: State, i: nat, to: SeekPoint, hr: bool, n: nat, first: seq<real>, pos: real)
    requires CacheOk(c) && c.Shape() && i < |c.ranges| && n < |c.cfg| && SeekSound(c, first)
    requires var r := c.ranges[i];
             && r.seekStart != NOPTS && !to.forward && SeekableQueue(r.queues[n], c.cfg[n])
             && NotBefore(pos, to, r, c.cfg, n, hr, first)
             && (!hr ==> var v := VideoStream(c.cfg, 0);
                         v < |c.cfg| ==> SeekableQueue(r.queues[v], c.cfg[v]) && c.cfg[v].preroll >= 0.0)
    ensures var c', r, q := CacheSeek(c, i, to, hr), c.ranges[i], c.ranges[i].queues[n];
            var to' := if hr then to else AdjustTarget(r, c.cfg, to, 0);
            && |c'.ranges| > 0 && c'.ranges[|c'.ranges| - 1] == r && n < |c'.streams|
            && Found(q, c'.streams[n].readerHead, c.cfg[n].preroll, to'.pts, pos)
  {
    hide RunMin, QueueTarget, Covered, QueueOk, NonDecreasing, AdjustTarget, NoCandidate, Candidate, CacheSeek;
    var r := c.ranges[i];
    var q := r.queues[n];
    assert RangeOk(r, c.cfg) && QueueOk(q, c.cfg[n]) && Covered(r, c.cfg, first);
    if !hr {
      AdjustedNotAfter(r, c.cfg, n, to, first, pos);
    }
    CoveredStart(r, c.cfg, n, first, pos);
    var to' := if hr then to else AdjustTarget(r, c.cfg, to, 0);
    QueueSeekIsSound(q, c.cfg[n], to'.pts, pos);
    SeekGoesTo(c, i, to, hr, n);
    var t := QueueTarget(q, c.cfg[n], to'.pts, false).value;
    assert ReaderOn(q, CacheSeek(c, i, to, hr).streams[n].readerHead, c.cfg[n].preroll, to'.pts, pos, t);
  }

  // So after every run from the initial state, whatever was delivered, pruned,
  // joined and sought: a backward seek into any range is right for every position
  // that is not before the start of the range; nor, if the queue starts after that,
  // before the latest place where the stream started at the beginning of the file
  // during the run.
  lemma RunSeekIsSound(cfg: seq<StreamConfig>, opts: Options, ops: seq<Op>, i: nat, to: SeekPoint, hr: bool, n: nat, pos: real)
    requires var c, first := Run(Initial(cfg, opts), ops), Firsts(Initial(cfg, opts), ops, seq(|cfg|, k => NOPTS));
             && i < |c.ranges| && n < |c.cfg| == |first| && |c.ranges[i].queues| == |c.cfg| && !to.forward
             && c.ranges[i].seekStart != NOPTS && SeekableQueue(c.ranges[i].queues[n], c.cfg[n])
             && NotBefore(pos, to, c.ranges[i], c.cfg, n, hr, first)
             && (!hr ==> var v := VideoStream(c.cfg, 0);
                         v < |c.cfg| ==> SeekableQueue(c.ranges[i].queues[v], c.cfg[v]) && c.cfg[v].preroll >= 0.0)
    ensures var c := Run(Initial(cfg, opts), ops);
            && c.Shape()
            && var c', r, q := CacheSeek(c, i, to, hr), c.ranges[i], c.ranges[i].queues[n];
               var to' := if hr then to else AdjustTarget(r, c.cfg, to, 0);
               && n < |c'.streams|
               && Found(q, c'.streams[n].readerHead, c.cfg[n].preroll, to'.pts, pos)
  {
    hide CacheOk, SeekSound, CacheSeek, Found, SeekableQueue, NotBefore, Initial, AdjustTarget, VideoStream;
    InitialSound(cfg, opts);
    RunKeepsCache(Initial(cfg, opts), ops);
    RunKeepsSound(Initial(cfg, opts), ops, seq(|cfg|, k => NOPTS));
    var c := Run(Initial(cfg, opts), ops);
    CacheSeekIsSound(c, i, to, hr, n, Firsts(Initial(cfg, opts), ops, seq(|cfg|, k => NOPTS)), pos);
  }

  // Where an in-cache seek puts the readers.
  lemma SeekGoesTo(c: State, i: nat, to: SeekPoint, hr: bool, n: nat)
    requires c.Shape() && i < |c.ranges| && n < |c.cfg|
    ensures var c', r, q := CacheSeek(c, i, to, hr), c.ranges[i], c.ranges[i].queues[n];
            var to' := if hr then to else AdjustTarget(r, c.cfg, to, 0);
            var t := QueueTarget(q, c.cfg[n], to'.pts, to'.forward);
            && |c'.ranges| > 0 && c'.ranges[|c'.ranges| - 1] == r && n < |c'.streams|
            && c'.streams[n].readerHead == (if t.Some? then Some(q.base + t.value) else None)
  {
    hide QueueTarget, AdjustTarget, SwitchRange;
    var r := c.ranges[i];
    var to' := if hr then to else AdjustTarget(r, c.cfg, to, 0);
    var c1 := c.(streams := SeekStreams(c, r, to'));
    if i != c.Last() {
      SwitchedTo(c1, i, n);
    }
  }

  lemma SwitchedTo(c: State, i: nat, n: nat)
    requires c.Shape() && i < c.Last() && n < |c.streams|
    ensures var c' := SwitchRange(c, i);
            && |c'.ranges| > 0 && c'.ranges[|c'.ranges| - 1] == c.ranges[i]
            && |c'.streams| == |c.streams| && c'.streams[n].readerHead == c.streams[n].readerHead
  {
    hide TrimRange, ClearRange, Unjoinable, Kept, Evict;
  }
}
