// Backward demuxing on the cache: what it looks at are the queue and the reader of
// one stream, while packets are added to the cache and pruned, and ranges are
// joined and switched.

module BackwardRuns {
  import opened Timestamps
  import opened Wrappers
  import opened Packets
  import opened Queues
  import opened Ranges
  import opened Cache
  import opened CacheInvariants
  import opened Pruning
  import opened CacheRuns
  import opened ReaderRuns
  import opened SeekSoundness
  import opened FileBeginning
  import opened Refreshing
  import B = Backward

  // --- What can be seen of the stream ---

  ghost predicate HasStream(c: State, n: nat) {
    |c.ranges| > 0 && n < |c.streams| && n < |c.ranges[|c.ranges| - 1].queues|
  }

  function CurrentQueue(c: State, n: nat): Queue
    requires HasStream(c, n)
  {
    c.ranges[|c.ranges| - 1].queues[n]
  }

  function ViewOf(c: State, n: nat): (v: B.View)
    requires HasStream(c, n)
    ensures v.first <= |v.pkts|
  {
    var q, st := CurrentQueue(c, n), c.streams[n];
    var first := if st.readerHead.Some? && q.Has(st.readerHead.value) then st.readerHead.value - q.base else |q.pkts|;
    B.View(q.pkts, first, st.eof, q.isBof, q.seekStart, st.globalCorrectDts, st.globalCorrectPos)
  }

  ghost predicate KnowsOrder(st: Stream, s: seq<Packet>) {
    (ByDts(s) ==> st.globalCorrectDts) && (ByPos(s) ==> st.globalCorrectPos)
  }

  predicate SameOrder(st: Stream, tt: Stream) {
    tt.globalCorrectDts == st.globalCorrectDts && tt.globalCorrectPos == st.globalCorrectPos
  }

  // A stream that is ended has all of its packets in the queue, up to the last
  // one.
  ghost predicate Sees(q: Queue, st: Stream, s: seq<Packet>) {
    && KnowsOrder(st, s)
    && (st.eof ==>
          && (forall hi: nat :: WindowAt(q, s, hi) ==> hi == |s|)
          && (q.isBof && Untouched(q) ==> NoKeyframeBefore(s, |s|)))
  }

  ghost predicate SeesStream(c: State, n: nat, s: seq<Packet>) {
    HasStream(c, n) && Sees(CurrentQueue(c, n), c.streams[n], s)
  }

  // The place of the queue in the stream.
  ghost function PlaceOf(c: State, n: nat, s: seq<Packet>): nat
    requires HasStream(c, n)
  {
    var q := CurrentQueue(c, n);
    if hi: nat :| WindowAt(q, s, hi) then hi - |q.pkts| else if c.streams[n].eof then |s| else 0
  }

  // So it is a window of the stream that backward demuxing looks at.
  lemma ViewShows(c: State, n: nat, s: seq<Packet>, at: nat)
    requires Tracks(c, n, s, at) && OpenState(c, n, s, at) && SeesStream(c, n, s) && CanFind(c, n) && Regular(s)
    ensures B.Shows(ViewOf(c, n), s, PlaceOf(c, n, s))
  {
    hide Ordered, DtsRise, PosRise, ByDts, ByPos;
    var q, v, lo := CurrentQueue(c, n), ViewOf(c, n), PlaceOf(c, n, s);
    assert Trusts(c.streams[n], q);
    CorrectIsOrdered(q, s);
    SomeOrder(s);
    assert Window(q, s) && OpenRange(c.ranges[|c.ranges| - 1], n, s);
    if hi: nat :| WindowAt(q, s, hi) {
      assert WindowAt(q, s, lo + |q.pkts|);
    } else {
      assert s[lo..lo] == [];
    }
    if v.isBof {
      NoneBefore(s, lo);
    }
  }

  // What a queue with packets takes to increase is not missing in the stream.
  lemma CorrectIsOrdered(q: Queue, s: seq<Packet>)
    requires Window(q, s) && Regular(s)
    ensures q.pkts != [] ==> (q.correctDts ==> ByDts(s)) && (q.correctPos ==> ByPos(s))
  {
    hide Ordered, ByDts, ByPos;
    if q.pkts != [] {
      var hi: nat :| WindowAt(q, s, hi);
      assert q.lastDts == s[hi - 1].dts && q.lastPos == s[hi - 1].pos;
    }
  }

  lemma SomeOrder(s: seq<Packet>)
    requires Ordered(s)
    ensures ByDts(s) || ByPos(s)
  {
  }

  lemma NoneBefore(s: seq<Packet>, k: nat)
    requires k <= |s| && NoKeyframeBefore(s, k)
    ensures NextKeyframe(s, 0) >= k
  {
  }

  // --- Joining ---

  // If the stream is ended and the queue is empty, the other queue has to end with
  // the stream, too.
  ghost predicate JoinEnds(c: State, n: nat, s: seq<Packet>)
    requires c.Shape() && n < |c.cfg|
  {
    c.streams[n].eof && c.ranges[c.Last()].queues[n].pkts == [] && JoinsWith(c).Some? ==>
      forall hi: nat :: WindowAt(c.ranges[JoinsWith(c).value].queues[n], s, hi) ==> hi == |s|
  }

  lemma JoinSees(q1: Queue, q2: Queue, s: seq<Packet>, cfg: StreamConfig, st: Stream)
    requires Regular(s) && Window(q1, s) && Window(q2, s) && Counts(cfg) && |q2.cum| == |q2.pkts|
    requires TrimStream(q1, q2, cfg, st).Joinable? && Sees(q1, st, s) && BofOpen(q1, s)
    requires st.eof && q1.pkts == [] ==> forall hi: nat :: WindowAt(q2, s, hi) ==> hi == |s|
    ensures var t := TrimStream(q1, q2, cfg, st).q; Sees(Join(q1, t), JoinStream(q1, t, cfg, st), s)
  {
    hide SamePacket, PastPacket, TrimToJoin, Join, Ordered, ByDts, ByPos;
    var t := TrimStream(q1, q2, cfg, st).q;
    JoinedPackets(q1, t);
    JoinKeepsStart(q1, t);
    if st.eof {
      if q1.pkts == [] {
        assert forall hi: nat :: WindowAt(q2, s, hi) <==> WindowAt(Join(q1, t), s, hi);
        if !Untouched(q1) && q1.isBof {
          var hi: nat :| WindowAt(q1, s, hi);
          assert NoKeyframeBefore(s, |s|);
        }
      } else {
        hide Window, Untouched;
        JoinedToEnd(q1, q2, s, cfg, st);
        SomeTouched(Join(q1, t));
      }
    }
  }

  lemma SomeTouched(q: Queue)
    requires q.pkts != []
    ensures !Untouched(q)
  {
  }

  lemma JoinedToEnd(q1: Queue, q2: Queue, s: seq<Packet>, cfg: StreamConfig, st: Stream)
    requires Regular(s) && Window(q1, s) && Window(q2, s) && Counts(cfg) && |q2.cum| == |q2.pkts|
    requires TrimStream(q1, q2, cfg, st).Joinable? && q1.pkts != []
    requires forall hi: nat :: WindowAt(q1, s, hi) ==> hi == |s|
    ensures forall hi: nat :: WindowAt(Join(q1, TrimStream(q1, q2, cfg, st).q), s, hi) ==> hi == |s|
  {
    hide SamePacket, PastPacket, TrimToJoin, Join, Ordered, ByDts, ByPos, Window, WindowAt;
    var t := TrimStream(q1, q2, cfg, st).q;
    var r := Join(q1, t);
    JoinedPackets(q1, t);
    var hi1 := WindowHi(q1, s);
    LastInWindow(q1, s, hi1);
    TrimToJoinWindow(q2, s, q1.pkts[|q1.pkts| - 1], hi1, st);
    var hi: nat :| Continues(t, s, hi1, hi);
    WindowsMeet(q1, t, r, s, hi1, hi);
    forall hi': nat | WindowAt(r, s, hi')
      ensures hi' == |s|
    {
      WindowUnique(r, s, hi', hi);
    }
  }

  lemma DiscardSees(c: State, i: nat, n: nat, s: seq<Packet>)
    requires SeesStream(c, n, s) && i < |c.ranges| - 1 && |c.ranges[i].queues| == |c.cfg|
    ensures SeesStream(FreeEmptyRanges(WithRange(c, i, ClearRange(c.ranges[i], c.cfg))), n, s)
  {
    hide Sees, ClearRange;
    FreeEmptySees(WithRange(c, i, ClearRange(c.ranges[i], c.cfg)), n, s);
  }

  lemma FreeEmptySees(c: State, n: nat, s: seq<Packet>)
    requires SeesStream(c, n, s)
    ensures SeesStream(FreeEmptyRanges(c), n, s)
  {
    hide Sees;
    EvictionOutcome(c.ranges, c.opts.seekableCache);
  }

  lemma AttemptJoinSees(c: State, n: nat, s: seq<Packet>, at: nat)
    requires OpenState(c, n, s, at) && Tracks(c, n, s, at) && Regular(s) && c.Shape() && n < |c.cfg| && Counts(c.cfg[n])
    requires SeesStream(c, n, s) && JoinEnds(c, n, s)
    ensures SeesStream(AttemptJoin(c), n, s)
  {
    hide JoinWith, TrimStream, Join, JoinStream, FreeEmptyRanges, ClearRange, Tracks, Window, WindowAt, Ordered, ByDts, ByPos, Sees, BofOpen;
    NextIsNotCurrent(c.ranges, c.Last());
    OpenCurrent(c, n, s, at);
    var next := ChooseNext(c.ranges, c.Last());
    if next.Some? {
      var i, cur := next.value, c.ranges[c.Last()];
      var qs2 := TrimAll(cur.queues, c.ranges[i].queues, c.cfg, c.streams, |c.cfg|);
      if qs2.Some? {
        TrimAllAt(cur.queues, c.ranges[i].queues, c.cfg, c.streams, |c.cfg|, n);
        TracksWindows(c, n, s, at, i);
        assert JoinsWith(c) == Some(i) && QueuesShape(c.ranges[i], c.cfg);
        JoinSees(cur.queues[n], c.ranges[i].queues[n], s, c.cfg[n], c.streams[n]);
        JoinedCurrent(c, i, qs2.value, n);
      } else {
        DiscardSees(c, i, n, s);
      }
    }
  }

  // --- Adding packets, EOF ---

  ghost predicate AdjustEnds(c: State, m: nat, dp: Option<nat>, n: nat, s: seq<Packet>)
    requires c.Shape() && m < |c.cfg| && n < |c.cfg|
  {
    var r := c.ranges[c.Last()];
    c.opts.seekableCache && NeedsUpdate(r.queues[m], dp, r.seekEnd) && c.cfg[m].eager
    ==> JoinEnds(Adjusted(c, m, dp), n, s)
  }

  lemma SameSees(q: Queue, r: Queue, st: Stream, s: seq<Packet>)
    requires Sees(q, st, s) && r.pkts == q.pkts && r.lastDts == q.lastDts && r.lastPos == q.lastPos && r.isBof == q.isBof
    ensures Sees(r, st, s)
  {
    assert forall hi: nat :: WindowAt(q, s, hi) == WindowAt(r, s, hi);
  }

  lemma AdjustSees(c: State, m: nat, dp: Option<nat>, n: nat, s: seq<Packet>, at: nat)
    requires OpenState(c, n, s, at) && Tracks(c, n, s, at) && Regular(s)
    requires c.Shape() && m < |c.cfg| && n < |c.cfg| && Counts(c.cfg[n]) && SeesStream(c, n, s) && AdjustEnds(c, m, dp, n, s)
    requires c.ranges[c.Last()].queues[n].pkts == [] ==> c.ranges[c.Last()].queues[n].kfLatest.None?
    ensures SeesStream(AdjustSeekRange(c, m, dp), n, s)
  {
    hide HeadBegins, AttemptJoin, LatestMin, LatestMax, UpdateSeekRanges, Tracks, Narrows, OpenRanges, Ordered, ByDts, ByPos, MovesKeyframe,
         JoinEnds, NeedsUpdate, Sees;
    if c.opts.seekableCache {
      var r := c.ranges[c.Last()];
      var q := r.queues[m];
      var q' := AdjustQueue(q, dp, c.cfg[m].preroll);
      var r' := SetQueue(r, m, q');
      OpenCurrent(c, n, s, at);
      SameHead(q, q', s);
      assert BofOpen(r'.queues[n], s);
      SameSees(r.queues[n], r'.queues[n], c.streams[n], s);
      var u := UpdateSeekRanges(r', c.cfg);
      UpdatedSpan(r', c.cfg);
      if NeedsUpdate(q, dp, r.seekEnd) && c.cfg[m].eager {
        SameNarrows(r.queues[n], r'.queues[n], s);
        UpdateOpen(r', n, c.cfg, s);
        SetOpenRange(c.ranges, c.Last(), u, n, s);
        NarrowerRangeTracks(c, c.Last(), u, n, s, at);
        AttemptJoinSees(WithRange(c, c.Last(), u), n, s, at);
      }
    }
  }

  // A packet that is appended ends nothing.
  lemma AppendSees(c: State, n: nat, w: seq<Packet>, at: nat)
    requires c.Shape() && n < |c.cfg| && at < |w| && !c.seeking && !c.streams[n].refreshing
    requires var s := StoredAll(w, c.cfg[n]);
             Tracks(c, n, s, at) && Regular(s) && SeesStream(c, n, s)
    ensures SeesStream(AppendPacket(c, n, w[at]), n, StoredAll(w, c.cfg[n]))
  {
    hide Window, WindowAt, Ordered, ByDts, ByPos, Untouched;
    var s := StoredAll(w, c.cfg[n]);
    var q := c.ranges[c.Last()].queues[n];
    AppendWindow(q, s, at);
    WindowIsCorrect(Append(q, s[at]), s);
  }

  lemma WindowIsCorrect(q: Queue, s: seq<Packet>)
    requires Window(q, s)
    ensures (ByDts(s) ==> q.correctDts) && (ByPos(s) ==> q.correctPos)
  {
  }

  lemma AddPacketSees(c: State, n: nat, w: seq<Packet>, at: nat)
    requires CacheOk(c) && c.Shape() && n < |c.cfg| && Counts(c.cfg[n]) && Regular(w) && at < |w|
    requires var s := StoredAll(w, c.cfg[n]);
             OpenState(c, n, s, at) && Tracks(c, n, s, at) && SeesStream(c, n, s)
    ensures SeesStream(AddPacket(c, n, w[at]), n, StoredAll(w, c.cfg[n]))
  {
    hide CacheOk, AdjustSeekRange, OpenState, AppendPacket, Sees, StillRefreshing;
    var s := StoredAll(w, c.cfg[n]);
    StoredOrdered(w, c.cfg[n]);
    if c.seeking || c.streams[n].refreshing {
      RefreshSees(c, n, s, StillRefreshing(c.ranges[c.Last()].queues[n], w[at]));
    } else {
      AppendOpen(c, n, w, at);
      AppendTracks(c, n, w, at);
      AppendSees(c, n, w, at);
      FileBeginning.AppendedOne(c, n, w[at]);
      NoJoinEnds(c, n, w[at], s);
      AdjustSees(AppendPacket(c, n, w[at]), n, Some(c.ranges[c.Last()].queues[n].End()), n, s, at + 1);
    }
  }

  lemma RefreshSees(c: State, n: nat, s: seq<Packet>, refreshing: bool)
    requires c.Shape() && n < |c.cfg| && SeesStream(c, n, s)
    ensures SeesStream(WithStream(c, n, c.streams[n].(refreshing := refreshing)), n, s)
  {
  }

  lemma NoJoinEnds(c: State, n: nat, p: Packet, s: seq<Packet>)
    requires c.Shape() && n < |c.cfg|
    ensures var c' := AppendPacket(c, n, p);
            c'.Shape() && n < |c'.cfg| && forall dp :: AdjustEnds(c', n, dp, n, s)
  {
  }

  ghost predicate Ends(c: State, op: Op, n: nat, s: seq<Packet>, at: nat)
    requires c.Shape() && n < |c.cfg|
  {
    match op
    case Deliver(m, p) =>
      m < |c.cfg| && m != n && Appends(c, m, p)
      ==> AdjustEnds(AppendPacket(c, m, p), m, Some(c.ranges[c.Last()].queues[m].End()), n, s)
    case ReachEof(m) =>
      m < |c.cfg| && !c.streams[m].eof ==>
        && AdjustEnds(WithStream(c, m, c.streams[m].(eof := true)), m, None, n, s)
        && (m == n ==> at == |s| && !c.seeking)
    case MarkBof => !c.streams[n].eof
    case _ => true
  }

  lemma OtherPacketSees(c: State, m: nat, p: Packet, n: nat, s: seq<Packet>, at: nat)
    requires CacheOk(c) && OpenState(c, n, s, at) && Tracks(c, n, s, at) && Regular(s)
    requires c.Shape() && m < |c.cfg| && m != n && n < |c.cfg| && Counts(c.cfg[n])
    requires SeesStream(c, n, s) && Ends(c, Deliver(m, p), n, s, at)
    ensures SeesStream(AddPacket(c, m, p), n, s)
  {
    hide CacheOk, StillRefreshing, OpenRanges, AdjustSeekRange, Tracks, HeadBegins, Ordered, ByDts, ByPos, AdjustEnds, Sees;
    if !(p.len == 0 || !c.cfg[m].selected || c.seeking) && !c.streams[m].refreshing {
      var r := c.ranges[c.Last()];
      OpenCurrent(c, n, s, at);
      SetOpen(r, m, Append(r.queues[m], Stored(p, c.cfg[m])), n, s);
      SetOpenRange(c.ranges, c.Last(), SetQueue(r, m, Append(r.queues[m], Stored(p, c.cfg[m]))), n, s);
      OtherAppendTracks(c, m, p, n, s, at);
      AppendShape(c, m, p);
      StartHasPackets(c, n);
      AdjustSees(AppendPacket(c, m, p), m, Some(r.queues[m].End()), n, s, at);
    }
  }

  // The stream ends where the demuxer is.
  lemma EofSees(c: State, n: nat, s: seq<Packet>, at: nat)
    requires OpenState(c, n, s, at) && Tracks(c, n, s, at) && c.Shape() && n < |c.cfg|
    requires SeesStream(c, n, s) && at == |s| && !c.seeking
    ensures SeesStream(WithStream(c, n, c.streams[n].(eof := true)), n, s)
  {
    hide OpenRanges, Window;
  }

  lemma MarkEofSees(c: State, m: nat, n: nat, s: seq<Packet>, at: nat)
    requires CacheOk(c) && OpenState(c, n, s, at) && Tracks(c, n, s, at) && Regular(s)
    requires c.Shape() && m < |c.cfg| && n < |c.cfg| && Counts(c.cfg[n])
    requires SeesStream(c, n, s) && Ends(c, ReachEof(m), n, s, at)
    ensures SeesStream(MarkEof(c, m), n, s)
  {
    hide CacheOk, OpenRanges, AdjustSeekRange, Tracks, HeadBegins, Ordered, ByDts, ByPos, AdjustEnds, Sees;
    if !c.streams[m].eof {
      var c' := WithStream(c, m, c.streams[m].(eof := true));
      SameSyncTracks(c, c', n, s, at);
      StartHasPackets(c, n);
      if m == n {
        EofSees(c, n, s, at);
      }
      AdjustSees(c', m, None, n, s, at);
    }
  }

  // --- Pruning ---

  lemma NarrowerSees(q: Queue, r: Queue, st: Stream, s: seq<Packet>)
    requires Sees(q, st, s) && Window(q, s) && Narrows(q, r, s) && !r.isBof
    ensures Sees(r, st, s)
  {
    hide Window, WindowAt;
  }

  lemma PruneStreamSees(c: State, k: nat, n: nat, s: seq<Packet>, at: nat)
    requires CacheOk(c) && c.Shape() && k < |c.cfg| && n < |c.cfg| && Tracks(c, n, s, at) && Regular(s) && SeesStream(c, n, s)
    requires Prunable(c.ranges[0].queues[k], ReaderIn(c, 0, k))
    ensures SeesStream(PruneStream(c, k), n, s)
  {
    hide CacheOk, Narrows, Sees, PruneQueue, FreeEmptyRanges, PrunedRange, Window, Ordered, ByDts, ByPos, InSync, PruneStream;
    var r := c.ranges[0];
    var p := PruneQueue(r.queues[k], ReaderIn(c, 0, k), c.opts.seekableCache, c.cfg[k].preroll);
    PruneStreamUnfolded(c, k);
    PrunedRangeQueues(r, k, p, c.cfg);
    PrunedIsNotBof(r.queues[k], ReaderIn(c, 0, k), c.opts.seekableCache, c.cfg[k].preroll);
    PruneQueueNarrows(r.queues[k], ReaderIn(c, 0, k), c.opts.seekableCache, c.cfg[k].preroll, s);
    var c1 := WithRange(c, 0, PrunedRange(r, k, p, c.cfg));
    assert Window(r.queues[n], s);
    if 0 == c.Last() && k == n {
      NarrowerSees(r.queues[n], p.q, c.streams[n], s);
    }
    assert SeesStream(c1, n, s);
    FreeEmptySees(c1, n, s);
  }

  lemma {:induction false} PruneSees(c: State, n: nat, s: seq<Packet>, at: nat)
    requires CacheOk(c) && c.Shape() && n < |c.cfg| && Tracks(c, n, s, at) && Regular(s) && SeesStream(c, n, s)
    ensures SeesStream(Prune(c), n, s)
    decreases TotalPackets(c.ranges)
  {
    hide CacheOk, SeesStream, Earliest, PruneStream, WithinBudget, Tracks, Ordered, ByDts, ByPos;
    if !WithinBudget(c) {
      var k := Earliest(c, 0, None);
      EarliestIsPrunable(c, 0, None);
      if k.Some? {
        PruneStreamOk(c, k.value);
        PruneStreamShrinks(c, k.value);
        PruneStreamTracks(c, k.value, n, s, at);
        PruneStreamSees(c, k.value, n, s, at);
        PruneSees(PruneStream(c, k.value), n, s, at);
      }
    }
  }

  // --- Other steps ---

  lemma NotEnded(c: State, n: nat, s: seq<Packet>)
    requires HasStream(c, n) && KnowsOrder(c.streams[n], s) && !c.streams[n].eof
    ensures SeesStream(c, n, s)
  {
  }

  lemma CacheSeekEnds(c: State, i: nat, to: SeekPoint, hr: bool, n: nat)
    requires c.Shape() && i < |c.ranges| && n < |c.cfg| && !c.streams[n].eof
    ensures var c' := CacheSeek(c, i, to, hr);
            HasStream(c', n) && !c'.streams[n].eof && SameOrder(c.streams[n], c'.streams[n])
  {
    hide SwitchRange, QueueTarget, AdjustTarget;
    var r := c.ranges[i];
    var to' := if hr then to else AdjustTarget(r, c.cfg, to, 0);
    var c1 := c.(streams := SeekStreams(c, r, to'));
    if i != c.Last() {
      SwitchedTo(c1, i, n);
      SwitchKeepsConfig(c1, i);
      SwitchKeepsReaders(c1, i, n);
    }
  }

  lemma FreshRangeEnds(c: State, n: nat)
    requires c.Shape() && n < |c.cfg| && !c.streams[n].eof
    ensures var c' := FreshRange(c);
            HasStream(c', n) && !c'.streams[n].eof && SameOrder(c.streams[n], c'.streams[n])
  {
    hide SwitchRange, ClearRange;
    var last := c.ranges[c.Last()];
    if !c.opts.seekableCache {
      ClearedHasNoSpan(last, c.cfg);
    } else {
      var c1 := c.(ranges := c.ranges[..c.Last()] + [NewRange(c.cfg), last]);
      SwitchedTo(c1, c.Last(), n);
      SwitchKeepsReaders(c1, c.Last(), n);
    }
  }

  // A seek makes streams go on.
  lemma QueueSeekSees(c: State, to: SeekPoint, hr: bool, cached: bool, seekable: bool, n: nat, s: seq<Packet>)
    requires c.Shape() && n < |c.cfg| && SeesStream(c, n, s)
    ensures SeesStream(QueueSeek(c, to, hr, cached, seekable), n, s)
  {
    hide CacheSeek, FreshRange;
    var k := if c.opts.seekableCache then FindCacheRange(c, to.pts, 0) else |c.ranges|;
    if to.pts == NOPTS {
    } else if k < |c.ranges| {
      CacheSeekEnds(ClearReaders(c), k, to, hr, n);
      NotEnded(CacheSeek(ClearReaders(c), k, to, hr), n, s);
    } else if !(cached || !seekable) {
      FreshRangeEnds(ClearReaders(c), n);
      NotEnded(FreshRange(ClearReaders(c)).(seeking := true, seekPts := to.pts), n, s);
    }
  }

  lemma MarkBofSees(c: State, n: nat, s: seq<Packet>)
    requires c.Shape() && n < |c.cfg| && SeesStream(c, n, s) && !c.streams[n].eof
    ensures SeesStream(MarkBofStep(c), n, s)
  {
    NotEnded(MarkBofStep(c), n, s);
  }

  // The queue and what counts of the stream stay the same.
  lemma SameStreamSees(c: State, c': State, n: nat, s: seq<Packet>)
    requires SeesStream(c, n, s) && c'.ranges == c.ranges && n < |c'.streams|
    requires SameOrder(c.streams[n], c'.streams[n]) && (c'.streams[n].eof ==> c.streams[n].eof)
    ensures SeesStream(c', n, s)
  {
  }

  lemma AdvanceSees(c: State, m: nat, n: nat, s: seq<Packet>)
    requires c.Shape() && m < |c.cfg| && n < |c.cfg| && SeesStream(c, n, s)
    ensures SeesStream(WithStream(c, m, Advance(c.ranges[c.Last()].queues[m], c.streams[m])), n, s)
  {
    hide Sees;
    SameStreamSees(c, WithStream(c, m, Advance(c.ranges[c.Last()].queues[m], c.streams[m])), n, s);
  }

  // What is known of stream n, when the demuxer is at position at.
  ghost predicate Known(c: State, n: nat, w: seq<Packet>, at: nat) {
    && CacheOk(c) && c.Shape() && n < |c.cfg| && Counts(c.cfg[n])
    && var s := StoredAll(w, c.cfg[n]);
       Tracks(c, n, s, at) && OpenState(c, n, s, at) && SeesStream(c, n, s) && CanFind(c, n)
  }

  lemma StepSees(c: State, op: Op, n: nat, w: seq<Packet>, at: nat, at': nat)
    requires Known(c, n, w, at) && Regular(w) && Moves(c, op, n, w, at, at')
    requires Ends(c, op, n, StoredAll(w, c.cfg[n]), at)
    ensures SeesStream(Step(c, op), n, StoredAll(w, c.cfg[n]))
  {
    hide CacheOk, Tracks, OpenState, SeesStream, AddPacket, MarkEof, Prune, QueueSeek, FreeEmptyRanges, Advance, ResumesBefore,
         AdjustEnds, Ordered, ByDts, ByPos;
    var s := StoredAll(w, c.cfg[n]);
    StoredOrdered(w, c.cfg[n]);
    match op {
      case Deliver(m, p) =>
        if m < |c.cfg| {
          if m == n {
            AddPacketSees(c, n, w, at);
            AddPacketTracks(c, n, w, at);
          } else {
            OtherPacketSees(c, m, p, n, s, at);
            OtherPacketTracks(c, m, p, n, s, at);
          }
          AddPacketOk(c, m, p);
          OkHasShape(AddPacket(c, m, p));
          AddPacketConfig(c, m, p);
          PruneSees(AddPacket(c, m, p), n, s, at');
        }
      case ReachEof(m) =>
        if m < |c.cfg| {
          MarkEofSees(c, m, n, s, at);
        }
      case Read(m) =>
        if m < |c.cfg| {
          ReadOk(c, m);
          AdvanceSees(c, m, n, s);
          AdvanceTracks(c, m, n, s, at);
          PruneSees(WithStream(c, m, Advance(c.ranges[c.Last()].queues[m], c.streams[m])), n, s, at);
        }
      case Seek(to, hr, cached, seekable) =>
        QueueSeekSees(c, to, hr, cached, seekable, n, s);
      case MarkBof =>
        MarkBofSees(c, n, s);
      case ExecuteSeek =>
        StreamsStay(c, c.(seeking := false), n, s);
      case SetOptions(opts) =>
        var c1 := c.(opts := opts);
        OptionsOk(c, opts);
        StreamsStay(c, c1, n, s);
        SameSyncTracks(c, c1, n, s, at);
        PruneSees(c1, n, s, at);
        FreeEmptySees(Prune(c1), n, s);
    }
  }

  lemma StreamsStay(c: State, c': State, n: nat, s: seq<Packet>)
    requires SeesStream(c, n, s) && c'.ranges == c.ranges && c'.streams == c.streams
    ensures SeesStream(c', n, s)
  {
  }

  lemma StepKnown(c: State, op: Op, n: nat, w: seq<Packet>, at: nat, at': nat)
    requires Known(c, n, w, at) && Regular(w) && Moves(c, op, n, w, at, at')
    requires var s := StoredAll(w, c.cfg[n]); Begins(c, op, n, s, at') && Ends(c, op, n, s, at)
    ensures Known(Step(c, op), n, w, at') && Step(c, op).cfg == c.cfg
  {
    hide CacheOk, Tracks, OpenState, SeesStream, CanFind, Step, Moves, Begins, Ends, Ordered, ByDts, ByPos;
    StepOk(c, op);
    StepConfig(c, op);
    StepTracks(c, op, n, w, at, at');
    StepOpen(c, op, n, w, at, at');
    StepSees(c, op, n, w, at, at');
    StepFinds(c, op, n);
  }

  // --- Backward demuxing ---

  datatype Act =
    | Demux(op: Op)                       // what goes on in the cache
    | LookBack                            // find_backward_restart_pos()
    | ResumeEarlier(stepSize: real)       // ... resuming at an earlier packet

  function AidOf(c: State, n: nat): B.SeekAid
    requires HasStream(c, n) && n < |c.cfg|
  {
    B.SeekAid(CurrentQueue(c, n).index, CurrentQueue(c, n).base, c.cfg[n].preroll)
  }

  function WithReader(c: State, n: nat, i: nat, eof: bool): State
    requires HasStream(c, n)
  {
    WithStream(c, n, c.streams[n].(readerHead := Some(CurrentQueue(c, n).base + i), skipToKeyframe := false, eof := eof))
  }

  // What looking back and resuming do to the reader.
  function Moved(c: State, n: nat, b: B.Back, act: Act, cfg: B.Config): State
    requires HasStream(c, n) && n < |c.cfg|
  {
    var v := ViewOf(c, n);
    match act
    case Demux(op) => c
    case LookBack =>
      var o := B.Find(v, b, cfg);
      if o.Restart? then WithReader(c, n, o.target, c.streams[n].eof) else c
    case ResumeEarlier(stepSize) =>
      var to := B.ResumeEarlier(v, b, AidOf(c, n), stepSize);
      if to.Moved? then WithReader(c, n, to.first, false) else c
  }

  ghost function EventOf(c: State, n: nat, act: Act, s: seq<Packet>): B.Event
    requires HasStream(c, n) && n < |c.cfg|
  {
    match act
    case ResumeEarlier(stepSize) => B.MoveEarlier(ViewOf(c, n), AidOf(c, n), stepSize)
    case _ => B.Look(ViewOf(c, n), PlaceOf(c, n, s))
  }

  lemma MovedKnown(c: State, n: nat, b: B.Back, act: Act, cfg: B.Config, w: seq<Packet>, at: nat)
    requires Known(c, n, w, at)
    ensures Known(Moved(c, n, b, act, cfg), n, w, at) && Moved(c, n, b, act, cfg).cfg == c.cfg
  {
    hide Tracks, OpenState, B.Find, B.ResumeEarlier;
    var s, c' := StoredAll(w, c.cfg[n]), Moved(c, n, b, act, cfg);
    TargetInView(ViewOf(c, n), b, cfg, AidOf(c, n), if act.ResumeEarlier? then act.stepSize else 0.0);
    ReaderMoved(c, c', n);
    SameSyncTracks(c, c', n, s, at);
    SameSyncOpen(c, c', n, s, at);
    SameStreamSees(c, c', n, s);
    assert CanFind(c', n);
  }

  lemma TargetInView(v: B.View, b: B.Back, cfg: B.Config, aid: B.SeekAid, stepSize: real)
    requires v.first <= |v.pkts|
    ensures var o := B.Find(v, b, cfg); o.Restart? ==> o.target < |v.pkts|
    ensures var to := B.ResumeEarlier(v, b, aid, stepSize); to.Moved? ==> to.first < |v.pkts|
  {
    hide B.GoBack;
    B.GoBackInRange(v, b, cfg, |v.pkts|);
    if v.first < |v.pkts| {
      B.GoBackInRange(v, b, cfg, B.FindMatch(v, b, v.first));
    }
  }

  // Moving a reader within its queue leaves the cache in order.
  lemma ReaderMoved(c: State, c': State, n: nat)
    requires CacheOk(c) && c.Shape() && HasStream(c, n) && |c'.streams| == |c.streams|
    requires c' == WithStream(c, n, c'.streams[n])
    requires c'.streams[n].readerHead.Some? ==> CurrentQueue(c, n).Has(c'.streams[n].readerHead.value)
    ensures CacheOk(c') && c'.Shape()
  {
    hide RangesOk, OthersSeekable;
    var qs := c.ranges[|c.ranges| - 1].queues;
    forall i | 0 <= i < |c'.streams|
      ensures ReaderOk(qs[i], c'.streams[i])
    {
      assert ReaderOk(qs[i], c.streams[i]);
    }
  }

  lemma MovedOk(c: State, n: nat, b: B.Back, act: Act, cfg: B.Config)
    requires CacheOk(c) && c.Shape() && n < |c.cfg|
    ensures var c' := Moved(c, n, b, act, cfg); CacheOk(c') && c'.Shape() && c'.cfg == c.cfg
  {
    hide RangesOk, OthersSeekable, B.Find, B.ResumeEarlier;
    TargetInView(ViewOf(c, n), b, cfg, AidOf(c, n), if act.ResumeEarlier? then act.stepSize else 0.0);
    assert ReaderOk(CurrentQueue(c, n), c.streams[n]);
    ReaderMoved(c, Moved(c, n, b, act, cfg), n);
  }

  // --- Whole runs ---

  // What backward demuxing sees on the way.
  ghost function Events(c: State, b: B.Back, acts: seq<Act>, n: nat, w: seq<Packet>, cfg: B.Config): seq<B.Event>
    requires CacheOk(c) && c.Shape() && n < |c.cfg|
    decreases |acts|
  {
    if |acts| == 0 then []
    else if acts[0].Demux? then
      StepOk(c, acts[0].op);
      StepConfig(c, acts[0].op);
      Events(Step(c, acts[0].op), b, acts[1..], n, w, cfg)
    else
      MovedOk(c, n, b, acts[0], cfg);
      var e := EventOf(c, n, acts[0], StoredAll(w, c.cfg[n]));
      [e] + Events(Moved(c, n, b, acts[0], cfg), B.Next(b, e, cfg), acts[1..], n, w, cfg)
  }

  // The demuxer works as it is asked to for the beginning and the end of the
  // stream.
  ghost predicate Works(c: State, b: B.Back, acts: seq<Act>, n: nat, w: seq<Packet>, ats: seq<nat>, cfg: B.Config)
    requires CacheOk(c) && c.Shape() && n < |c.cfg|
    decreases |acts|
  {
    var s := StoredAll(w, c.cfg[n]);
    if |acts| == 0 then true
    else if |ats| < 2 then false
    else if acts[0].Demux? then
      StepOk(c, acts[0].op);
      StepConfig(c, acts[0].op);
      && Moves(c, acts[0].op, n, w, ats[0], ats[1]) && Begins(c, acts[0].op, n, s, ats[1]) && Ends(c, acts[0].op, n, s, ats[0])
      && Works(Step(c, acts[0].op), b, acts[1..], n, w, ats[1..], cfg)
    else
      MovedOk(c, n, b, acts[0], cfg);
      var e := EventOf(c, n, acts[0], s);
      ats[1] == ats[0] && Works(Moved(c, n, b, acts[0], cfg), B.Next(b, e, cfg), acts[1..], n, w, ats[1..], cfg)
  }

  lemma {:induction false} EventsPlausible(c: State, b: B.Back, acts: seq<Act>, n: nat, w: seq<Packet>, ats: seq<nat>, cfg: B.Config)
    requires |ats| > 0 && Known(c, n, w, ats[0]) && Regular(w) && Works(c, b, acts, n, w, ats, cfg)
    ensures B.Plausible(b, Events(c, b, acts, n, w, cfg), cfg, StoredAll(w, c.cfg[n]))
    decreases |acts|
  {
    hide Tracks, OpenState, SeesStream, Step, Moves, Begins, Ends, Moved, B.Next, B.Shows, CacheOk;
    if |acts| > 0 {
      if acts[0].Demux? {
        StepKnown(c, acts[0].op, n, w, ats[0], ats[1]);
        EventsPlausible(Step(c, acts[0].op), b, acts[1..], n, w, ats[1..], cfg);
      } else {
        MovedKnown(c, n, b, acts[0], cfg, w, ats[0]);
        var e := EventOf(c, n, acts[0], StoredAll(w, c.cfg[n]));
        ViewShows(c, n, StoredAll(w, c.cfg[n]), ats[0]);
        EventsPlausible(Moved(c, n, b, acts[0], cfg), B.Next(b, e, cfg), acts[1..], n, w, ats[1..], cfg);
        FirstPlausible(b, e, Events(Moved(c, n, b, acts[0], cfg), B.Next(b, e, cfg), acts[1..], n, w, cfg), cfg,
                       StoredAll(w, c.cfg[n]));
      }
    }
  }

  lemma FirstPlausible(b: B.Back, e: B.Event, es: seq<B.Event>, cfg: B.Config, s: seq<Packet>)
    requires (e.Look? ==> B.Shows(e.v, s, e.lo)) && B.Plausible(B.Next(b, e, cfg), es, cfg, s)
    ensures B.Plausible(b, [e] + es, cfg, s)
  {
    hide B.Next, B.Shows;
    assert ([e] + es)[1..] == es;
  }

  // Backward playback of a stream, while the cache does what it does: the
  // restart positions tile the stream if and only if every step renders all it
  // should. And if the walk ends, it has come to the beginning of the file if and
  // only if the queue it last looked at has no keyframe before both the reader and
  // the last restart position.
  lemma RunTilesIff(c: State, b: B.Back, acts: seq<Act>, n: nat, w: seq<Packet>, ats: seq<nat>, cfg: B.Config, r: nat)
    requires |ats| > 0 && Known(c, n, w, ats[0]) && Regular(w) && Works(c, b, acts, n, w, ats, cfg)
    requires B.RestartsAt(b, StoredAll(w, c.cfg[n]), r)
    ensures var s, es := StoredAll(w, c.cfg[n]), Events(c, b, acts, n, w, cfg);
            var cuts := B.Cuts(b, es, cfg);
            && r <= |s|
            && (B.Tiles(s, r, cuts, cfg) <==> B.AllRendered(b, es, cfg, r))
            && (|es| > 0 && B.EndsAtBof(b, es, cfg) ==>
                  var cut := B.LastCut(r, cuts);
                  && es[|es| - 1].Look? && cut <= |s|
                  && (B.KfCount(s, 0, cut) == 0
                      <==> NextKeyframe(es[|es| - 1].v.pkts, 0) >= B.BehindBoth(es[|es| - 1].v, es[|es| - 1].lo, cut)))
  {
    hide Tracks, OpenState, SeesStream, CacheOk, Works, Events, B.Tiles, B.AllRendered, B.Cuts, B.EndsAtBof, B.KfCount, B.BehindBoth, B.Plausible, B.RestartsAt,
         NextKeyframe, Ordered, ByDts, ByPos, B.LastCut;
    var s, es := StoredAll(w, c.cfg[n]), Events(c, b, acts, n, w, cfg);
    StoredOrdered(w, c.cfg[n]);
    EventsPlausible(c, b, acts, n, w, ats, cfg);
    B.WalkTilesIff(b, es, cfg, s, r);
    if |es| > 0 && B.EndsAtBof(b, es, cfg) {
      B.WalkEndsIff(b, es, cfg, s, r);
    }
  }

  // All this can start with the demuxer.
  lemma InitialKnown(cfg: seq<StreamConfig>, opts: Options, n: nat, w: seq<Packet>, at: nat)
    requires n < |cfg| && Counts(cfg[n]) && Regular(w)
    ensures Known(Initial(cfg, opts), n, w, at)
  {
    InitialOk(cfg, opts);
    InitialOpen(cfg, opts, n, StoredAll(w, cfg[n]), at);
    assert Untouched(NewQueue());
    UntouchedHasNoWindow(NewQueue(), StoredAll(w, cfg[n])) by { StoredOrdered(w, cfg[n]); }
  }
}
