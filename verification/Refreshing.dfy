// A stream that looks for its place again knows what to compare.
//
// add_packet_locked() has a branch for queues of which neither dts nor positions
// have only increased, and says that it should not happen. It does not: ranges that
// could not be gone on with are never kept.

module Refreshing {
  import opened Timestamps
  import opened Wrappers
  import opened Packets
  import opened Queues
  import opened Ranges
  import opened Cache
  import opened CacheInvariants
  import opened Pruning
  import opened CacheRuns

  // --- The invariant ---

  ghost predicate Comparable(q: Queue) {
    q.correctDts || q.correctPos
  }

  // What holds for the stream as a whole holds for each queue.
  ghost predicate Trusts(s: Stream, q: Queue) {
    (s.globalCorrectDts ==> q.correctDts) && (s.globalCorrectPos ==> q.correctPos)
  }

  ghost predicate TrustsAll(rs: seq<Range>, s: Stream, n: nat) {
    forall r :: 0 <= r < |rs| ==> n < |rs[r].queues| && Trusts(s, rs[r].queues[n])
  }

  // The ranges that are not current can be gone on with.
  ghost predicate OthersComparable(rs: seq<Range>, n: nat) {
    forall r :: 0 <= r < |rs| - 1 ==> n < |rs[r].queues| && Comparable(rs[r].queues[n])
  }

  ghost predicate CanFind(c: State, n: nat) {
    && |c.ranges| > 0 && n < |c.streams|
    && TrustsAll(c.ranges, c.streams[n], n) && OthersComparable(c.ranges, n)
    && (c.streams[n].refreshing ==> Comparable(c.ranges[|c.ranges| - 1].queues[n]))
  }

  // --- Queues ---

  // Nothing but appending and joining makes a queue know less.
  ghost predicate KnowsMore(q: Queue, r: Queue) {
    (q.correctDts ==> r.correctDts) && (q.correctPos ==> r.correctPos)
  }

  lemma {:induction false} TrimKnows(q: Queue)
    requires |q.cum| == |q.pkts|
    ensures KnowsMore(q, TrimNonKeyframes(q))
    decreases |q.pkts|
  {
    if |q.pkts| > 0 && !q.pkts[0].keyframe {
      TrimKnows(RemoveHead(q));
    }
  }

  lemma {:induction false} PruneRunKnows(q: Queue, reader: Option<nat>, seekable: bool, nonKf: bool, kf: bool)
    requires |q.cum| == |q.pkts|
    ensures KnowsMore(q, PruneRun(q, reader, seekable, nonKf, kf).q)
    decreases |q.pkts|
  {
    if Prunable(q, reader) && !(q.pkts[0].keyframe && (kf || nonKf) && seekable) {
      PruneRunKnows(RemoveHead(q), reader, seekable, nonKf, kf || q.pkts[0].keyframe);
    }
  }

  lemma PruneQueueKnows(q: Queue, reader: Option<nat>, seekable: bool, preroll: real)
    requires |q.cum| == |q.pkts|
    ensures KnowsMore(q, PruneQueue(q, reader, seekable, preroll).q)
  {
    hide PruneRun, RunMin;
    PruneRunKnows(q, reader, seekable, |q.pkts| > 0 && !q.pkts[0].keyframe, false);
  }

  lemma {:induction false} TrimToJoinKnows(q: Queue, end: Packet, s: Stream)
    requires |q.cum| == |q.pkts|
    ensures !TrimToJoin(q, end, s).CannotJoin? ==> KnowsMore(q, TrimToJoin(q, end, s).q)
    decreases |q.pkts|
  {
    hide SamePacket, PastPacket;
    if |q.pkts| > 0 {
      TrimToJoinKnows(RemoveHead(q), end, s);
    }
  }

  // Queues are only joined if packets of the whole stream can be compared.
  lemma JoinComparable(q1: Queue, q2: Queue, cfg: StreamConfig, s: Stream)
    requires |q2.cum| == |q2.pkts| && TrimStream(q1, q2, cfg, s).Joinable? && Trusts(s, q1) && Trusts(s, q2)
    ensures var q := Join(q1, TrimStream(q1, q2, cfg, s).q); Trusts(s, q) && Comparable(q)
  {
    hide TrimToJoin, Join;
    JoinedPackets(q1, TrimStream(q1, q2, cfg, s).q);
    if q1.pkts != [] {
      TrimToJoinKnows(q2, q1.pkts[|q1.pkts| - 1], s);
    }
  }

  // --- States ---

  // Another range, of which no less is known, in place of one.
  lemma SetRangeFinds(c: State, i: nat, r: Range, n: nat)
    requires CanFind(c, n) && i < |c.ranges| && n < |r.queues| && KnowsMore(c.ranges[i].queues[n], r.queues[n])
    ensures CanFind(WithRange(c, i, r), n)
  {
  }

  lemma FreeEmptyFinds(c: State, n: nat)
    requires CanFind(c, n)
    ensures CanFind(FreeEmptyRanges(c), n)
  {
    hide FreeEmpty, Trusts, Comparable;
    var rs, e := c.ranges, FreeEmpty(c.ranges, c.opts.seekableCache);
    EvictionOutcome(rs, c.opts.seekableCache);
    forall r | 0 <= r < |e|
      ensures exists i :: 0 <= i < |rs| && rs[i] == e[r] && (r < |e| - 1 ==> i < |rs| - 1)
    {
      KeptWas(rs, c.opts.seekableCache, r);
    }
  }

  // What is left was there before.
  lemma KeptWas(rs: seq<Range>, seekable: bool, r: nat)
    requires |rs| > 0 && r < |FreeEmpty(rs, seekable)|
    ensures var e := FreeEmpty(rs, seekable);
            exists i :: 0 <= i < |rs| && rs[i] == e[r] && (r < |e| - 1 ==> i < |rs| - 1)
  {
    hide FreeEmpty;
    var e := FreeEmpty(rs, seekable);
    EvictionOutcome(rs, seekable);
    if r < |e| - 1 {
      SubsequenceMembers(e[..|e| - 1], rs[..|rs| - 1]);
      assert e[r] in e[..|e| - 1] && e[r] in rs[..|rs| - 1];
    } else {
      assert rs[|rs| - 1] == e[r];
    }
  }

  lemma DiscardFinds(c: State, i: nat, n: nat)
    requires CanFind(c, n) && i < |c.ranges| && |c.ranges[i].queues| == |c.cfg|
    ensures CanFind(FreeEmptyRanges(WithRange(c, i, ClearRange(c.ranges[i], c.cfg))), n)
  {
    hide FreeEmptyRanges, ClearRange;
    ClearedHasNoSpan(c.ranges[i], c.cfg);
    SetRangeFinds(c, i, ClearRange(c.ranges[i], c.cfg), n);
    FreeEmptyFinds(WithRange(c, i, ClearRange(c.ranges[i], c.cfg)), n);
  }

  lemma JoinWithFinds(c: State, i: nat, qs2: seq<Queue>, n: nat)
    requires CanFind(c, n) && c.Shape() && i < c.Last() && |qs2| == |c.cfg| && n < |c.cfg|
    requires var q := Join(c.ranges[c.Last()].queues[n], qs2[n]); Trusts(c.streams[n], q) && Comparable(q)
    ensures CanFind(JoinWith(c, i, qs2), n)
  {
    hide UpdateSeekRanges, Join, Comparable;
    var cur := c.ranges[c.Last()];
    UpdatedSpan(cur.(queues := JoinAll(cur.queues, qs2)), c.cfg);
  }

  lemma AttemptJoinFinds(c: State, n: nat)
    requires CanFind(c, n) && c.Shape() && n < |c.cfg|
    ensures CanFind(AttemptJoin(c), n)
  {
    hide JoinWith, TrimStream, Join, FreeEmptyRanges, ClearRange, Trusts, Comparable;
    NextIsNotCurrent(c.ranges, c.Last());
    var next := ChooseNext(c.ranges, c.Last());
    if next.Some? {
      var i, cur := next.value, c.ranges[c.Last()];
      var qs2 := TrimAll(cur.queues, c.ranges[i].queues, c.cfg, c.streams, |c.cfg|);
      if qs2.Some? {
        TrimAllAt(cur.queues, c.ranges[i].queues, c.cfg, c.streams, |c.cfg|, n);
        JoinComparable(cur.queues[n], c.ranges[i].queues[n], c.cfg[n], c.streams[n]);
        JoinWithFinds(c, i, qs2.value, n);
        JoinWithKeeps(c, i, qs2.value);
        DiscardFinds(JoinWith(c, i, qs2.value), i, n);
      } else {
        DiscardFinds(c, i, n);
      }
    }
  }

  // --- Adding packets, EOF, pruning ---

  lemma AdjustFinds(c: State, m: nat, dp: Option<nat>, n: nat)
    requires CanFind(c, n) && c.Shape() && m < |c.cfg| && n < |c.cfg|
    ensures CanFind(AdjustSeekRange(c, m, dp), n)
  {
    hide CanFind, AttemptJoin, LatestMin, LatestMax, UpdateSeekRanges, NeedsUpdate, Closes;
    if c.opts.seekableCache {
      var r := c.ranges[c.Last()];
      var r' := SetQueue(r, m, AdjustQueue(r.queues[m], dp, c.cfg[m].preroll));
      UpdatedSpan(r', c.cfg);
      SetRangeFinds(c, c.Last(), r', n);
      SetRangeFinds(c, c.Last(), UpdateSeekRanges(r', c.cfg), n);
      if NeedsUpdate(r.queues[m], dp, r.seekEnd) && c.cfg[m].eager {
        AttemptJoinFinds(WithRange(c, c.Last(), UpdateSeekRanges(r', c.cfg)), n);
      }
    }
  }

  lemma AppendFinds(c: State, m: nat, p: Packet, n: nat)
    requires CanFind(c, n) && c.Shape() && m < |c.cfg| && n < |c.cfg| && !c.streams[m].refreshing
    ensures CanFind(AppendPacket(c, m, p), n)
  {
  }

  lemma AddPacketFinds(c: State, m: nat, p: Packet, n: nat)
    requires CanFind(c, n) && c.Shape() && m < |c.cfg| && n < |c.cfg|
    ensures CanFind(AddPacket(c, m, p), n)
  {
    hide AdjustSeekRange, AppendPacket, StillRefreshing, Comparable;
    if !(p.len == 0 || !c.cfg[m].selected || c.seeking) && !c.streams[m].refreshing {
      AppendFinds(c, m, p, n);
      AppendShape(c, m, p);
      AdjustFinds(AppendPacket(c, m, p), m, Some(c.ranges[c.Last()].queues[m].End()), n);
    }
  }

  lemma MarkEofFinds(c: State, m: nat, n: nat)
    requires CanFind(c, n) && c.Shape() && m < |c.cfg| && n < |c.cfg|
    ensures CanFind(MarkEof(c, m), n)
  {
    hide AdjustSeekRange, Comparable;
    if !c.streams[m].eof {
      AdjustFinds(WithStream(c, m, c.streams[m].(eof := true)), m, None, n);
    }
  }

  lemma PruneStreamFinds(c: State, k: nat, n: nat)
    requires CanFind(c, n) && c.Shape() && k < |c.cfg| && n < |c.cfg|
    ensures CanFind(PruneStream(c, k), n)
  {
    hide CanFind, PruneQueue, FreeEmptyRanges, PrunedRange;
    var r := c.ranges[0];
    var p := PruneQueue(r.queues[k], ReaderIn(c, 0, k), c.opts.seekableCache, c.cfg[k].preroll);
    PruneQueueKnows(r.queues[k], ReaderIn(c, 0, k), c.opts.seekableCache, c.cfg[k].preroll);
    PruneStreamUnfolded(c, k);
    PrunedRangeQueues(r, k, p, c.cfg);
    SetRangeFinds(c, 0, PrunedRange(r, k, p, c.cfg), n);
    FreeEmptyFinds(WithRange(c, 0, PrunedRange(r, k, p, c.cfg)), n);
  }

  lemma {:induction false} PruneFinds(c: State, n: nat)
    requires CacheOk(c) && c.Shape() && CanFind(c, n) && n < |c.cfg|
    ensures CanFind(Prune(c), n)
    decreases TotalPackets(c.ranges)
  {
    hide CacheOk, CanFind, Earliest, PruneStream, WithinBudget;
    if !WithinBudget(c) {
      var k := Earliest(c, 0, None);
      EarliestIsPrunable(c, 0, None);
      if k.Some? {
        PruneStreamOk(c, k.value);
        PruneStreamShrinks(c, k.value);
        PruneStreamFinds(c, k.value, n);
        PruneFinds(PruneStream(c, k.value), n);
      }
    }
  }

  // --- Seeking ---

  lemma LeftFinds(c: State, n: nat)
    requires c.Shape() && n < |c.cfg| && c.cfg[n].selected && CanFind(c, n)
    ensures var prev := TrimRange(c.ranges[c.Last()], c.cfg);
            var left := if Unjoinable(c) then ClearRange(prev, c.cfg) else prev;
            && |prev.queues| == |left.queues| == |c.cfg|
            && Trusts(c.streams[n], left.queues[n]) && Comparable(left.queues[n])
  {
    hide ClearRange, TrimNonKeyframes;
    var last := c.ranges[c.Last()];
    TrimKnows(last.queues[n]);
    ClearedHasNoSpan(TrimRange(last, c.cfg), c.cfg);
  }

  // The range that is left is kept only if the stream can be told apart.
  lemma SwitchRangeFinds(c: State, i: nat, n: nat)
    requires c.Shape() && i < c.Last() && n < |c.cfg| && c.cfg[n].selected && CanFind(c, n)
    ensures CanFind(SwitchRange(c, i), n)
    ensures var c' := SwitchRange(c, i); |c'.ranges| > 0 && c'.ranges[|c'.ranges| - 1] == c.ranges[i]
    ensures Comparable(c.ranges[i].queues[n])
  {
    hide ClearRange, FreeEmpty, TrimRange, Trusts, Comparable, Unjoinable;
    LeftFinds(c, n);
    var prev := TrimRange(c.ranges[c.Last()], c.cfg);
    var prev' := if Unjoinable(c) then ClearRange(prev, c.cfg) else prev;
    var rs := c.ranges[..i] + c.ranges[i + 1..c.Last()] + [prev'] + [c.ranges[i]];
    SwitchedComparable(c, i, prev', n);
    var c1 := c.(ranges := rs, streams := seq(|c.streams|, m requires 0 <= m < |c.streams| =>
                                            c.streams[m].(refreshing := false, eof := false)));
    SameTrust(c.streams[n], c1.streams[n]);
    ComparableFinds(c1, n);
    FreeEmptyFinds(c1, n);
    EvictionOutcome(rs, c.opts.seekableCache);
  }

  lemma SwitchedComparable(c: State, i: nat, left: Range, n: nat)
    requires c.Shape() && i < c.Last() && n < |c.cfg| && CanFind(c, n)
    requires n < |left.queues| && Trusts(c.streams[n], left.queues[n]) && Comparable(left.queues[n])
    ensures var rs := c.ranges[..i] + c.ranges[i + 1..c.Last()] + [left] + [c.ranges[i]];
            forall r :: 0 <= r < |rs| ==>
              n < |rs[r].queues| && Trusts(c.streams[n], rs[r].queues[n]) && Comparable(rs[r].queues[n])
  {
    hide Trusts, Comparable;
    var rs := c.ranges[..i] + c.ranges[i + 1..c.Last()] + [left] + [c.ranges[i]];
    forall r | 0 <= r < |rs|
      ensures n < |rs[r].queues| && Trusts(c.streams[n], rs[r].queues[n]) && Comparable(rs[r].queues[n])
    {
      assert rs[r] == if r < i then c.ranges[r] else if r < c.Last() - 1 then c.ranges[r + 1]
                      else if r == c.Last() - 1 then left else c.ranges[i];
    }
  }

  lemma SameTrust(s: Stream, s': Stream)
    requires s'.globalCorrectDts == s.globalCorrectDts && s'.globalCorrectPos == s.globalCorrectPos
    ensures forall q :: Trusts(s, q) ==> Trusts(s', q)
  {
  }

  lemma ComparableFinds(c: State, n: nat)
    requires |c.ranges| > 0 && n < |c.streams|
    requires forall r :: 0 <= r < |c.ranges| ==>
               n < |c.ranges[r].queues| && Trusts(c.streams[n], c.ranges[r].queues[n]) && Comparable(c.ranges[r].queues[n])
    ensures CanFind(c, n)
  {
    hide Trusts, Comparable;
  }

  lemma CacheSeekFinds(c: State, i: nat, to: SeekPoint, hr: bool, n: nat)
    requires c.Shape() && i < |c.ranges| && n < |c.cfg| && c.cfg[n].selected && CanFind(c, n)
    ensures CanFind(CacheSeek(c, i, to, hr), n)
  {
    hide SwitchRange, QueueTarget, AdjustTarget, Comparable;
    var r := c.ranges[i];
    var to' := if hr then to else AdjustTarget(r, c.cfg, to, 0);
    var c1 := c.(streams := SeekStreams(c, r, to'));
    assert CanFind(c1, n);
    if i != c.Last() {
      SwitchRangeFinds(c1, i, n);
      SwitchKeepsConfig(c1, i);
    }
  }

  lemma FreshRangeFinds(c: State, n: nat)
    requires c.Shape() && n < |c.cfg| && c.cfg[n].selected && CanFind(c, n)
    ensures CanFind(FreshRange(c), n)
  {
    hide SwitchRange, ClearRange;
    var last := c.ranges[c.Last()];
    if !c.opts.seekableCache {
      ClearedHasNoSpan(last, c.cfg);
      SetRangeFinds(c, c.Last(), ClearRange(last, c.cfg), n);
    } else {
      var c1 := c.(ranges := c.ranges[..c.Last()] + [NewRange(c.cfg), last]);
      assert CanFind(c1, n);
      SwitchRangeFinds(c1, c.Last(), n);
    }
  }

  lemma QueueSeekFinds(c: State, to: SeekPoint, hr: bool, cached: bool, seekable: bool, n: nat)
    requires c.Shape() && n < |c.cfg| && c.cfg[n].selected && CanFind(c, n)
    ensures CanFind(QueueSeek(c, to, hr, cached, seekable), n)
  {
    hide CacheSeek, FreshRange, Comparable;
    var c1 := ClearReaders(c);
    var k := if c.opts.seekableCache then FindCacheRange(c, to.pts, 0) else |c.ranges|;
    assert CanFind(c1, n);
    if to.pts == NOPTS {
    } else if k < |c.ranges| {
      CacheSeekFinds(c1, k, to, hr, n);
    } else if !(cached || !seekable) {
      FreshRangeFinds(c1, n);
    }
  }

  // --- Runs ---

  lemma StepFinds(c: State, op: Op, n: nat)
    requires CacheOk(c) && c.Shape() && n < |c.cfg| && c.cfg[n].selected && CanFind(c, n)
    ensures CanFind(Step(c, op), n)
  {
    hide CacheOk, CanFind, AddPacket, MarkEof, Prune, QueueSeek, FreeEmptyRanges, Advance;
    match op {
      case Deliver(m, p) =>
        if m < |c.cfg| {
          AddPacketFinds(c, m, p, n);
          AddPacketOk(c, m, p);
          OkHasShape(AddPacket(c, m, p));
          AddPacketConfig(c, m, p);
          PruneFinds(AddPacket(c, m, p), n);
        }
      case ReachEof(m) =>
        if m < |c.cfg| {
          MarkEofFinds(c, m, n);
        }
      case Read(m) =>
        if m < |c.cfg| {
          ReadOk(c, m);
          AdvanceFinds(c, m, n);
          PruneFinds(WithStream(c, m, Advance(c.ranges[c.Last()].queues[m], c.streams[m])), n);
        }
      case Seek(to, hr, cached, seekable) =>
        QueueSeekFinds(c, to, hr, cached, seekable, n);
      case MarkBof =>
        MarkBofFinds(c, n);
      case ExecuteSeek =>
        assert CanFind(c.(seeking := false), n) by { SameFinds(c, c.(seeking := false), n); }
      case SetOptions(opts) =>
        var c1 := c.(opts := opts);
        OptionsOk(c, opts);
        SameFinds(c, c1, n);
        PruneFinds(c1, n);
        FreeEmptyFinds(Prune(c1), n);
    }
  }

  lemma SameFinds(c: State, c': State, n: nat)
    requires CanFind(c, n) && c'.ranges == c.ranges && c'.streams == c.streams
    ensures CanFind(c', n)
  {
  }

  lemma AdvanceFinds(c: State, m: nat, n: nat)
    requires CanFind(c, n) && c.Shape() && m < |c.cfg|
    ensures CanFind(WithStream(c, m, Advance(c.ranges[c.Last()].queues[m], c.streams[m])), n)
  {
  }

  lemma MarkBofFinds(c: State, n: nat)
    requires CanFind(c, n) && c.Shape() && n < |c.cfg|
    ensures CanFind(MarkBofStep(c), n)
  {
    SetRangeFinds(c, c.Last(), MarkBofStep(c).ranges[c.Last()], n);
  }

  // Over every run, whatever the demuxer delivers: a selected stream that looks for its
  // place again has a queue in which dts or positions have only increased.
  lemma {:induction false} RunFinds(c: State, ops: seq<Op>, n: nat)
    requires CacheOk(c) && c.Shape() && n < |c.cfg| && c.cfg[n].selected && CanFind(c, n)
    ensures CanFind(Run(c, ops), n)
    decreases |ops|
  {
    hide CacheOk, CanFind, Step;
    if |ops| > 0 {
      StepOk(c, ops[0]);
      StepConfig(c, ops[0]);
      StepFinds(c, ops[0], n);
      RunFinds(Step(c, ops[0]), ops[1..], n);
    }
  }

  lemma InitialFinds(cfg: seq<StreamConfig>, opts: Options, n: nat)
    requires n < |cfg|
    ensures CanFind(Initial(cfg, opts), n)
  {
  }

  // So the branch for queues without such an order is never taken.
  lemma RunComparable(cfg: seq<StreamConfig>, opts: Options, ops: seq<Op>, n: nat)
    requires n < |cfg| && cfg[n].selected
    ensures var c := Run(Initial(cfg, opts), ops);
            && |c.ranges| > 0 && n < |c.streams| && n < |c.ranges[|c.ranges| - 1].queues|
            && var q := c.ranges[|c.ranges| - 1].queues[n];
               c.streams[n].refreshing ==> q.correctDts || q.correctPos
  {
    hide CacheOk, Initial, Run;
    InitialOk(cfg, opts);
    InitialFinds(cfg, opts, n);
    assert Initial(cfg, opts).cfg == cfg by { InitialIs(cfg, opts); }
    RunFinds(Initial(cfg, opts), ops, n);
  }

  lemma InitialIs(cfg: seq<StreamConfig>, opts: Options)
    ensures Initial(cfg, opts).cfg == cfg
  {
  }
}
