// What the decoder gets: between seeks, the packets of the stream one after the
// other. A join with another range could only come in between while the current
// queue is empty, when there is no packet to compare with; but as long as there
// are other ranges, the queue is not emptied below a reader that has a place.

module ReaderRuns {
  import opened Wrappers
  import opened Packets
  import opened Queues
  import opened Ranges
  import opened Cache
  import opened CacheInvariants
  import opened Pruning
  import opened CacheRuns

  // The reader will get the packet at position rp of the stream next; the queue
  // ends at position hi.
  ghost predicate ReaderUpTo(q: Queue, st: Stream, s: seq<Packet>, rp: nat, hi: nat) {
    && WindowAt(q, s, hi)
    && match st.readerHead
       case Some(h) => q.Has(h) && hi - (q.End() - h) == rp
       case None => rp == hi
  }

  ghost predicate ReaderAt(q: Queue, st: Stream, s: seq<Packet>, rp: nat) {
    !st.skipToKeyframe && exists hi: nat :: ReaderUpTo(q, st, s, rp, hi)
  }

  ghost predicate Reading(c: State, n: nat, s: seq<Packet>, rp: nat) {
    && |c.ranges| > 0 && n < |c.streams| && n < |c.ranges[|c.ranges| - 1].queues|
    && ReaderAt(c.ranges[|c.ranges| - 1].queues[n], c.streams[n], s, rp)
  }

  // --- Queues ---

  lemma SameReader(q: Queue, st: Stream, r: Queue, tt: Stream, s: seq<Packet>, rp: nat)
    requires ReaderAt(q, st, s, rp) && SameWindow(q, r) && r.base == q.base
    requires tt.readerHead == st.readerHead && tt.skipToKeyframe == st.skipToKeyframe
    ensures ReaderAt(r, tt, s, rp)
  {
    var hi: nat :| ReaderUpTo(q, st, s, rp, hi);
    assert ReaderUpTo(r, tt, s, rp, hi);
  }

  lemma RemoveHeadReader(q: Queue, st: Stream, s: seq<Packet>, rp: nat)
    requires ReaderAt(q, st, s, rp) && Prunable(q, st.readerHead) && |q.cum| == |q.pkts|
    ensures ReaderAt(RemoveHead(q), st, s, rp)
  {
    var hi: nat :| ReaderUpTo(q, st, s, rp, hi);
    assert ReaderUpTo(RemoveHead(q), st, s, rp, hi);
  }

  lemma {:induction false} PruneRunReader(q: Queue, st: Stream, seekable: bool, nonKf: bool, kf: bool, s: seq<Packet>, rp: nat)
    requires ReaderAt(q, st, s, rp) && |q.cum| == |q.pkts|
    ensures ReaderAt(PruneRun(q, st.readerHead, seekable, nonKf, kf).q, st, s, rp)
    decreases |q.pkts|
  {
    hide ReaderAt;
    if Prunable(q, st.readerHead) && !(q.pkts[0].keyframe && (kf || nonKf) && seekable) {
      RemoveHeadReader(q, st, s, rp);
      PruneRunReader(RemoveHead(q), st, seekable, nonKf, kf || q.pkts[0].keyframe, s, rp);
    }
  }

  lemma PruneQueueReader(q: Queue, st: Stream, seekable: bool, preroll: real, s: seq<Packet>, rp: nat)
    requires ReaderAt(q, st, s, rp) && |q.cum| == |q.pkts|
    ensures ReaderAt(PruneQueue(q, st.readerHead, seekable, preroll).q, st, s, rp)
  {
    hide ReaderAt, PruneRun, RunMin;
    var nonKf := |q.pkts| > 0 && !q.pkts[0].keyframe;
    var p := PruneRun(q, st.readerHead, seekable, nonKf, false);
    PruneRunReader(q, st, seekable, nonKf, false, s, rp);
    if p.kfPruned {
      SameReader(p.q, st, Restart(p.q, preroll), st, s, rp);
    }
  }

  lemma AppendReader(q: Queue, st: Stream, s: seq<Packet>, rp: nat, at: nat)
    requires ReaderAt(q, st, s, rp) && at < |s|
    requires forall hi: nat :: WindowAt(q, s, hi) ==> at == hi
    requires WindowAt(Append(q, s[at]), s, at + 1)
    ensures ReaderAt(Append(q, s[at]), st.(readerHead := if st.readerHead.None? then Some(q.End()) else st.readerHead), s, rp)
  {
    var hi: nat :| ReaderUpTo(q, st, s, rp, hi);
    assert hi == at;
    var tt := st.(readerHead := if st.readerHead.None? then Some(q.End()) else st.readerHead);
    assert ReaderUpTo(Append(q, s[at]), tt, s, rp, at + 1);
  }

  // --- Joining ---

  lemma WindowEnd(q: Queue, st: Stream, s: seq<Packet>, rp: nat) returns (hi: nat)
    requires ReaderAt(q, st, s, rp)
    ensures ReaderUpTo(q, st, s, rp, hi) && WindowAt(q, s, hi)
  {
    hi :| ReaderUpTo(q, st, s, rp, hi);
  }

  // With packets left in the queue, the reader does not notice a join.
  lemma JoinReader(q1: Queue, q2: Queue, s: seq<Packet>, cfg: StreamConfig, st: Stream, rp: nat)
    requires Ordered(s) && Window(q1, s) && Window(q2, s) && Counts(cfg) && |q2.cum| == |q2.pkts|
    requires TrimStream(q1, q2, cfg, st).Joinable? && |q1.pkts| > 0
    requires ReaderAt(q1, st, s, rp)
    ensures var t := TrimStream(q1, q2, cfg, st).q;
            ReaderAt(Join(q1, t), JoinStream(q1, t, cfg, st), s, rp)
  {
    hide SamePacket, PastPacket, TrimToJoin, Join, Ordered, Window, WindowAt, ReaderAt;
    var t := TrimStream(q1, q2, cfg, st).q;
    JoinedPackets(q1, t);
    var hi1 := WindowEnd(q1, st, s, rp);
    LastOfWindow(q1, s, hi1);
    TrimToJoinWindow(q2, s, q1.pkts[|q1.pkts| - 1], hi1, st);
    var hi: nat :| Continues(t, s, hi1, hi);
    WindowsMeet(q1, t, Join(q1, t), s, hi1, hi);
    JoinedReader(q1, t, s, cfg, st, rp, hi1, hi);
  }

  lemma LastOfWindow(q: Queue, s: seq<Packet>, hi: nat)
    requires WindowAt(q, s, hi) && |q.pkts| > 0
    ensures 0 < hi <= |s| && q.pkts[|q.pkts| - 1] == s[hi - 1]
  {
  }

  lemma JoinedReader(q1: Queue, t: Queue, s: seq<Packet>, cfg: StreamConfig, st: Stream, rp: nat, hi1: nat, hi: nat)
    requires ReaderUpTo(q1, st, s, rp, hi1) && Continues(t, s, hi1, hi) && cfg.selected
    requires WindowAt(Join(q1, t), s, hi)
    ensures ReaderAt(Join(q1, t), JoinStream(q1, t, cfg, st), s, rp)
  {
    JoinedPackets(q1, t);
    JoinFields(q1, t);
    hide Join;
    assert ReaderUpTo(Join(q1, t), JoinStream(q1, t, cfg, st), s, rp, hi);
  }

  // --- Waiting readers ---

  // Where the demuxer goes on in the stream: behind the queue; or where it is, if
  // the queue is a new one.
  ghost predicate GoesOn(q: Queue, s: seq<Packet>, at: nat, p: nat) {
    p <= |s| && (WindowAt(q, s, p) || (Untouched(q) && p == at))
  }

  // The packet a waiting reader gets when the demuxer is at p.
  function FirstFrom(st: Stream, s: seq<Packet>, p: nat): nat
    requires p <= |s|
  {
    if st.skipToKeyframe then NextKeyframe(s, p) else p
  }

  // Whether rp is the place of the packet the reader gets next.
  ghost predicate NextFor(q: Queue, st: Stream, s: seq<Packet>, at: nat, rp: nat) {
    match st.readerHead
    case Some(h) => exists hi: nat :: WindowAt(q, s, hi) && q.Has(h) && hi - (q.End() - h) == rp
    case None => exists p: nat :: GoesOn(q, s, at, p) && rp == FirstFrom(st, s, p)
  }

  // Whether the queue, or the demuxer if it is a new one, begins at rp.
  ghost predicate StartsFrom(q: Queue, s: seq<Packet>, at: nat, rp: nat) {
    if Untouched(q) then rp == at && at <= |s| else exists hi: nat :: WindowAt(q, s, hi) && hi - |q.pkts| == rp
  }

  // That is the packet it gets: it stays the same while packets are delivered.
  lemma AppendNext(q: Queue, st: Stream, s: seq<Packet>, at: nat, rp: nat)
    requires Ordered(s) && Window(q, s) && at < |s| && st.readerHead.None? && NextFor(q, st, s, at, rp)
    requires forall hi: nat :: WindowAt(q, s, hi) ==> at == hi
    ensures var starts := !st.skipToKeyframe || s[at].keyframe;
            var tt := if starts then st.(readerHead := Some(q.End()), skipToKeyframe := false) else st;
            NextFor(Append(q, s[at]), tt, s, at + 1, rp)
  {
    AppendWindow(q, s, at);
    var r := Append(q, s[at]);
    AppendGrows(q, s[at]);
    var p: nat :| GoesOn(q, s, at, p) && rp == FirstFrom(st, s, p);
    hide Window, Ordered, WindowAt, Untouched, Append;
    assert p == at;
    if st.skipToKeyframe && !s[at].keyframe {
      NextKeyframeUnique(s, at, NextKeyframe(s, at + 1));
      assert GoesOn(r, s, at + 1, at + 1);
    } else {
      assert WindowAt(r, s, at + 1) && rp == at;
    }
  }

  // A reader of an empty queue waits for what the demuxer delivers. A join gives
  // it the other queue at once: the reader goes on with the packet it waited for
  // if and only if the other queue begins with it. (`at'` is where the demuxer is
  // then.)
  lemma EmptyJoinReaderIff(q1: Queue, q2: Queue, s: seq<Packet>, cfg: StreamConfig, st: Stream, at': nat, rp: nat)
    requires Ordered(s) && Window(q2, s) && Counts(cfg) && |q2.cum| == |q2.pkts|
    requires TrimStream(q1, q2, cfg, st).Joinable? && q1.pkts == [] && st.readerHead.None?
    ensures var t := TrimStream(q1, q2, cfg, st).q;
            NextFor(Join(q1, t), JoinStream(q1, t, cfg, st), s, at', rp) <==> StartsFrom(q2, s, at', rp)
  {
    hide Join, Ordered, Knows, WindowAt, Untouched, TrimToJoin;
    var t := TrimStream(q1, q2, cfg, st).q;
    var r, tt := Join(q1, t), JoinStream(q1, t, cfg, st);
    JoinedPackets(q1, t);
    JoinFields(q1, t);
    SamePlaces(q2, r, s);
    if Untouched(q2) {
      UntouchedHasNoWindow(q2, s);
      UntouchedIsEmpty(q2);
      if at' <= |s| {
        assert GoesOn(r, s, at', at');
      }
    } else {
      assert forall hi: nat :: WindowAt(q2, s, hi) ==> GoesOn(r, s, at', hi);
    }
  }

  lemma SamePlaces(q: Queue, r: Queue, s: seq<Packet>)
    requires r.pkts == q.pkts && r.lastDts == q.lastDts && r.lastPos == q.lastPos
    ensures Untouched(r) == Untouched(q)
    ensures forall hi: nat :: WindowAt(q, s, hi) == WindowAt(r, s, hi) && (WindowAt(q, s, hi) ==> |q.pkts| <= hi <= |s|)
  {
  }

  lemma UntouchedIsEmpty(q: Queue)
    requires Untouched(q)
    ensures q.pkts == []
  {
  }

  // So for a demuxer that is not looking for its place, the reader goes on if and
  // only if the other queue begins where the demuxer is, or at the next keyframe if
  // that is what the reader waits for.
  lemma EmptyJoinIff(c: State, n: nat, s: seq<Packet>, at: nat, at': nat)
    requires CacheOk(c) && c.Shape() && n < |c.cfg| && Counts(c.cfg[n]) && Ordered(s) && at <= |s|
    requires Tracks(c, n, s, at) && !c.seeking && !c.streams[n].refreshing && JoinsWith(c).Some?
    requires c.ranges[c.Last()].queues[n].pkts == []
    ensures var c', rp := AttemptJoin(c), FirstFrom(c.streams[n], s, at);
            && |c'.ranges| > 0 && n < |c'.ranges[|c'.ranges| - 1].queues| && n < |c'.streams|
            && NextFor(c.ranges[c.Last()].queues[n], c.streams[n], s, at, rp)
            && (NextFor(c'.ranges[|c'.ranges| - 1].queues[n], c'.streams[n], s, at', rp)
                <==> StartsFrom(c.ranges[JoinsWith(c).value].queues[n], s, at', rp))
  {
    hide TrimStream, Join, JoinStream, FreeEmpty, ClearRange, NextFor, StartsFrom, RangesOk, OthersSeekable, WindowAt, Untouched;
    var i, cur := JoinsWith(c).value, c.ranges[c.Last()];
    var qs2 := TrimAll(cur.queues, c.ranges[i].queues, c.cfg, c.streams, |c.cfg|).value;
    TrimAllAt(cur.queues, c.ranges[i].queues, c.cfg, c.streams, |c.cfg|, n);
    TracksWindows(c, n, s, at, i);
    assert ReaderOk(cur.queues[n], c.streams[n]);
    WaitingNext(cur.queues[n], c.streams[n], s, at);
    EmptyJoinReaderIff(cur.queues[n], c.ranges[i].queues[n], s, c.cfg[n], c.streams[n], at', FirstFrom(c.streams[n], s, at));
    JoinedCurrent(c, i, qs2, n);
  }

  lemma WaitingNext(q: Queue, st: Stream, s: seq<Packet>, at: nat)
    requires Window(q, s) && InSync(q, st, s, at) && !st.refreshing && st.readerHead.None? && at <= |s|
    ensures NextFor(q, st, s, at, FirstFrom(st, s, at))
  {
    assert GoesOn(q, s, at, at);
  }

  lemma JoinedCurrent(c: State, i: nat, qs2: seq<Queue>, n: nat)
    requires c.Shape() && n < |c.cfg| && i < c.Last() && ChooseNext(c.ranges, c.Last()) == Some(i)
    requires TrimAll(c.ranges[c.Last()].queues, c.ranges[i].queues, c.cfg, c.streams, |c.cfg|) == Some(qs2)
    requires |qs2| == |c.cfg|
    ensures var c', q := AttemptJoin(c), c.ranges[c.Last()].queues[n];
            && |c'.ranges| > 0 && n < |c'.ranges[|c'.ranges| - 1].queues| && n < |c'.streams|
            && c'.ranges[|c'.ranges| - 1].queues[n] == Join(q, qs2[n])
            && c'.streams[n] == JoinStream(q, qs2[n], c.cfg[n], c.streams[n])
  {
    hide UpdateSeekRanges, Join, JoinStream, TrimAll, ChooseNext, ClearRange, FreeEmpty;
    var cur := c.ranges[c.Last()];
    UpdatedSpan(cur.(queues := JoinAll(cur.queues, qs2)), c.cfg);
    var c1 := JoinWith(c, i, qs2);
    ClearedHasNoSpan(c1.ranges[i], c.cfg);
    EvictionOutcome(c1.ranges[i := ClearRange(c1.ranges[i], c.cfg)], c.opts.seekableCache);
  }

  // --- The cache ---

  // A join would find a packet to compare.
  ghost predicate Comparable(c: State, n: nat) {
    |c.ranges| == 1 || (|c.ranges| > 0 && n < |c.ranges[|c.ranges| - 1].queues| && |c.ranges[|c.ranges| - 1].queues[n].pkts| > 0)
  }

  // The reader will get the packet at position rp next, whatever happens.
  ghost predicate Placed(c: State, n: nat, s: seq<Packet>, rp: nat) {
    Reading(c, n, s, rp) && Comparable(c, n)
  }

  // The current queue and the reader matter; the other ranges do not.
  lemma SameReading(c: State, c': State, n: nat, s: seq<Packet>, rp: nat)
    requires Reading(c, n, s, rp) && |c'.ranges| > 0 && n < |c'.streams| && n < |c'.ranges[|c'.ranges| - 1].queues|
    requires var q := c.ranges[|c.ranges| - 1].queues[n];
             var r := c'.ranges[|c'.ranges| - 1].queues[n];
             SameWindow(q, r) && r.base == q.base
    requires c'.streams[n].readerHead == c.streams[n].readerHead
    requires c'.streams[n].skipToKeyframe == c.streams[n].skipToKeyframe
    ensures Reading(c', n, s, rp)
  {
    hide ReaderAt;
    SameReader(c.ranges[|c.ranges| - 1].queues[n], c.streams[n], c'.ranges[|c'.ranges| - 1].queues[n], c'.streams[n], s, rp);
  }

  lemma FreeEmptyReading(c: State, n: nat, s: seq<Packet>, rp: nat)
    requires Reading(c, n, s, rp)
    ensures Reading(FreeEmptyRanges(c), n, s, rp)
  {
    hide ReaderAt;
    EvictionOutcome(c.ranges, c.opts.seekableCache);
  }

  lemma AttemptJoinReading(c: State, n: nat, s: seq<Packet>, at: nat, rp: nat)
    requires c.Shape() && n < |c.cfg| && Counts(c.cfg[n]) && Ordered(s)
    requires Tracks(c, n, s, at) && Reading(c, n, s, rp) && Comparable(c, n)
    ensures Reading(AttemptJoin(c), n, s, rp)
  {
    hide JoinWith, TrimStream, Join, FreeEmptyRanges, ReaderAt, Window, JoinStream, ClearRange, Tracks;
    NextIsNotCurrent(c.ranges, c.Last());
    var next := ChooseNext(c.ranges, c.Last());
    if next.Some? {
      var i, cur := next.value, c.ranges[c.Last()];
      var qs2 := TrimAll(cur.queues, c.ranges[i].queues, c.cfg, c.streams, |c.cfg|);
      ClearedHasNoSpan(c.ranges[i], c.cfg);
      if qs2.Some? {
        TrimAllAt(cur.queues, c.ranges[i].queues, c.cfg, c.streams, |c.cfg|, n);
        TracksWindows(c, n, s, at, i);
        JoinReader(cur.queues[n], c.ranges[i].queues[n], s, c.cfg[n], c.streams[n], rp);
        JoinWithReading(c, i, qs2.value, n, s, rp);
        JoinWithKeeps(c, i, qs2.value);
        var c1 := JoinWith(c, i, qs2.value);
        FreeEmptyReading(WithRange(c1, i, ClearRange(c1.ranges[i], c.cfg)), n, s, rp);
      } else {
        FreeEmptyReading(WithRange(c, i, ClearRange(c.ranges[i], c.cfg)), n, s, rp);
      }
    }
  }

  lemma JoinWithReading(c: State, i: nat, qs2: seq<Queue>, n: nat, s: seq<Packet>, rp: nat)
    requires c.Shape() && i < c.Last() && |qs2| == |c.cfg| && n < |c.cfg|
    requires var q := c.ranges[c.Last()].queues[n];
             ReaderAt(Join(q, qs2[n]), JoinStream(q, qs2[n], c.cfg[n], c.streams[n]), s, rp)
    ensures Reading(JoinWith(c, i, qs2), n, s, rp)
    ensures |JoinWith(c, i, qs2).ranges| == |c.ranges|
  {
    hide ReaderAt, UpdateSeekRanges, Join, JoinStream;
    var cur := c.ranges[c.Last()];
    UpdatedSpan(cur.(queues := JoinAll(cur.queues, qs2)), c.cfg);
  }

  lemma AdjustReading(c: State, m: nat, dp: Option<nat>, n: nat, s: seq<Packet>, at: nat, rp: nat)
    requires c.Shape() && m < |c.cfg| && n < |c.cfg| && Counts(c.cfg[n]) && Ordered(s)
    requires Tracks(c, n, s, at) && Reading(c, n, s, rp) && Comparable(c, n)
    ensures Reading(AdjustSeekRange(c, m, dp), n, s, rp)
  {
    hide Narrows, Tracks, AttemptJoin, LatestMin, LatestMax, UpdateSeekRanges, ReaderAt;
    if c.opts.seekableCache {
      var r := c.ranges[c.Last()];
      var q := r.queues[m];
      var r' := SetQueue(r, m, AdjustQueue(q, dp, c.cfg[m].preroll));
      SameNarrows(r.queues[n], r'.queues[n], s);
      NarrowerRangeTracks(c, c.Last(), r', n, s, at);
      SameReading(c, WithRange(c, c.Last(), r'), n, s, rp);
      var u := UpdateSeekRanges(r', c.cfg);
      UpdatedSpan(r', c.cfg);
      NarrowerRangeTracks(c, c.Last(), u, n, s, at);
      SameReading(c, WithRange(c, c.Last(), u), n, s, rp);
      if NeedsUpdate(q, dp, r.seekEnd) && c.cfg[m].eager {
        AttemptJoinReading(WithRange(c, c.Last(), u), n, s, at, rp);
      }
    }
  }

  lemma AddPacketReading(c: State, n: nat, w: seq<Packet>, at: nat, rp: nat)
    requires n < |c.cfg| && Ordered(w) && at < |w| && c.Shape() && Counts(c.cfg[n])
    requires Tracks(c, n, StoredAll(w, c.cfg[n]), at) && Reading(c, n, StoredAll(w, c.cfg[n]), rp)
    ensures Reading(AddPacket(c, n, w[at]), n, StoredAll(w, c.cfg[n]), rp)
  {
    hide StillRefreshing, Windows, Untouched, AdjustSeekRange, ReaderAt, Window;
    var s := StoredAll(w, c.cfg[n]);
    StoredOrdered(w, c.cfg[n]);
    if c.seeking {
    } else if c.streams[n].refreshing {
      SameReading(c, AddPacket(c, n, w[at]), n, s, rp);
    } else {
      AppendTracks(c, n, w, at);
      AppendReading(c, n, w, at, rp);
      var c' := AppendPacket(c, n, w[at]);
      AppendShape(c, n, w[at]);
      AdjustReading(c', n, Some(c.ranges[c.Last()].queues[n].End()), n, s, at + 1, rp);
    }
  }

  lemma AppendReading(c: State, n: nat, w: seq<Packet>, at: nat, rp: nat)
    requires n < |c.cfg| && c.Shape() && at < |w| && !c.seeking && !c.streams[n].refreshing
    requires var s := StoredAll(w, c.cfg[n]);
             Ordered(s) && Tracks(c, n, s, at) && Reading(c, n, s, rp)
    ensures Reading(AppendPacket(c, n, w[at]), n, StoredAll(w, c.cfg[n]), rp)
    ensures Comparable(AppendPacket(c, n, w[at]), n)
  {
    var s := StoredAll(w, c.cfg[n]);
    var q := c.ranges[c.Last()].queues[n];
    assert Window(q, s);
    AppendWindow(q, s, at);
    AppendReader(q, c.streams[n], s, rp, at);
    hide ReaderAt, Append, Window, WindowAt;
    var tt := c.streams[n].(readerHead := if c.streams[n].readerHead.None? then Some(q.End()) else c.streams[n].readerHead);
    SkipIsOff(q, c.streams[n], s, rp);
    var c' := AppendPacket(c, n, w[at]);
    AppendGrows(q, s[at]);
    SameReader(Append(q, s[at]), tt, Append(q, s[at]), c'.streams[n], s, rp);
  }

  lemma SkipIsOff(q: Queue, st: Stream, s: seq<Packet>, rp: nat)
    requires ReaderAt(q, st, s, rp)
    ensures !st.skipToKeyframe
  {
  }

  lemma AppendGrows(q: Queue, p: Packet)
    ensures |Append(q, p).pkts| == |q.pkts| + 1 && Append(q, p).base == q.base
  {
  }

  lemma OtherPacketReading(c: State, m: nat, p: Packet, n: nat, s: seq<Packet>, at: nat, rp: nat)
    requires c.Shape() && m < |c.cfg| && m != n && n < |c.cfg| && Counts(c.cfg[n]) && Ordered(s)
    requires Tracks(c, n, s, at) && Reading(c, n, s, rp) && Comparable(c, n)
    ensures Reading(AddPacket(c, m, p), n, s, rp)
  {
    hide StillRefreshing, Windows, Untouched, AdjustSeekRange, ReaderAt, InSync, Window;
    if !(p.len == 0 || !c.cfg[m].selected || c.seeking) && !c.streams[m].refreshing {
      OtherAppendTracks(c, m, p, n, s, at);
      AppendShape(c, m, p);
      SameReading(c, AppendPacket(c, m, p), n, s, rp);
      AdjustReading(AppendPacket(c, m, p), m, Some(c.ranges[c.Last()].queues[m].End()), n, s, at, rp);
    }
  }

  lemma MarkEofReading(c: State, m: nat, n: nat, s: seq<Packet>, at: nat, rp: nat)
    requires c.Shape() && m < |c.cfg| && n < |c.cfg| && Counts(c.cfg[n]) && Ordered(s)
    requires Tracks(c, n, s, at) && Reading(c, n, s, rp) && Comparable(c, n)
    ensures Reading(MarkEof(c, m), n, s, rp)
  {
    hide InSync, Windows, Untouched, AdjustSeekRange, ReaderAt;
    if !c.streams[m].eof {
      var c' := WithStream(c, m, c.streams[m].(eof := true));
      SameSyncTracks(c, c', n, s, at);
      SameReading(c, c', n, s, rp);
      AdjustReading(c', m, None, n, s, at, rp);
    }
  }

  lemma PruneStreamReading(c: State, k: nat, n: nat, s: seq<Packet>, rp: nat)
    requires Reading(c, n, s, rp) && c.Shape() && k < |c.cfg| && n < |c.cfg|
    ensures Reading(PruneStream(c, k), n, s, rp)
  {
    hide ReaderAt, PruneQueue, FreeEmptyRanges, PrunedRange;
    var r := c.ranges[0];
    var p := PruneQueue(r.queues[k], ReaderIn(c, 0, k), c.opts.seekableCache, c.cfg[k].preroll);
    if 0 == c.Last() && k == n {
      PruneQueueReader(r.queues[n], c.streams[n], c.opts.seekableCache, c.cfg[n].preroll, s, rp);
    }
    PruneStreamUnfolded(c, k);
    PrunedRangeQueues(r, k, p, c.cfg);
    FreeEmptyReading(WithRange(c, 0, PrunedRange(r, k, p, c.cfg)), n, s, rp);
  }

  lemma {:induction false} PruneReading(c: State, n: nat, s: seq<Packet>, rp: nat)
    requires CacheOk(c) && c.Shape() && Reading(c, n, s, rp) && n < |c.cfg|
    ensures Reading(Prune(c), n, s, rp)
    decreases TotalPackets(c.ranges)
  {
    hide CacheOk, Reading, Earliest, PruneStream, WithinBudget;
    if !WithinBudget(c) {
      var k := Earliest(c, 0, None);
      EarliestIsPrunable(c, 0, None);
      if k.Some? {
        PruneStreamOk(c, k.value);
        PruneStreamShrinks(c, k.value);
        PruneStreamReading(c, k.value, n, s, rp);
        PruneReading(PruneStream(c, k.value), n, s, rp);
      }
    }
  }

  // --- The queue stays comparable ---

  // Freeing ranges leaves the current one alone.
  lemma FreeEmptyComparable(c: State, n: nat)
    requires Comparable(c, n) && |c.ranges| > 0
    ensures Comparable(FreeEmptyRanges(c), n)
  {
    EvictionOutcome(c.ranges, c.opts.seekableCache);
    if |c.ranges| == 1 {
      var e := FreeEmpty(c.ranges, c.opts.seekableCache);
      SubsequenceMembers(e[..|e| - 1], c.ranges[..0]);
    }
  }

  lemma DiscardComparable(c: State, i: nat, n: nat)
    requires Comparable(c, n) && i < |c.ranges| - 1 && |c.ranges[i].queues| == |c.cfg|
    ensures Comparable(FreeEmptyRanges(WithRange(c, i, ClearRange(c.ranges[i], c.cfg))), n)
  {
    hide FreeEmptyRanges, ClearRange;
    FreeEmptyComparable(WithRange(c, i, ClearRange(c.ranges[i], c.cfg)), n);
  }

  lemma AttemptJoinComparable(c: State, n: nat)
    requires c.Shape() && n < |c.cfg| && Comparable(c, n)
    ensures Comparable(AttemptJoin(c), n)
  {
    hide JoinWith, FreeEmptyRanges, ClearRange, Comparable;
    NextIsNotCurrent(c.ranges, c.Last());
    var next := ChooseNext(c.ranges, c.Last());
    if next.Some? {
      var i, cur := next.value, c.ranges[c.Last()];
      var qs2 := TrimAll(cur.queues, c.ranges[i].queues, c.cfg, c.streams, |c.cfg|);
      if qs2.Some? && |qs2.value| == |c.cfg| {
        JoinWithComparable(c, i, qs2.value, n);
        JoinWithKeeps(c, i, qs2.value);
        DiscardComparable(JoinWith(c, i, qs2.value), i, n);
      } else {
        DiscardComparable(c, i, n);
      }
    }
  }

  lemma JoinWithComparable(c: State, i: nat, qs2: seq<Queue>, n: nat)
    requires c.Shape() && i < c.Last() && |qs2| == |c.cfg| && n < |c.cfg| && Comparable(c, n)
    ensures Comparable(JoinWith(c, i, qs2), n)
  {
    hide UpdateSeekRanges, Join;
    var cur := c.ranges[c.Last()];
    UpdatedSpan(cur.(queues := JoinAll(cur.queues, qs2)), c.cfg);
    JoinedPackets(cur.queues[n], qs2[n]);
  }

  lemma AdjustComparable(c: State, m: nat, dp: Option<nat>, n: nat)
    requires c.Shape() && m < |c.cfg| && n < |c.cfg| && Comparable(c, n)
    ensures Comparable(AdjustSeekRange(c, m, dp), n)
  {
    hide AttemptJoin, LatestMin, LatestMax, UpdateSeekRanges;
    if c.opts.seekableCache {
      var r := c.ranges[c.Last()];
      var r' := SetQueue(r, m, AdjustQueue(r.queues[m], dp, c.cfg[m].preroll));
      var u := UpdateSeekRanges(r', c.cfg);
      UpdatedSpan(r', c.cfg);
      if NeedsUpdate(r.queues[m], dp, r.seekEnd) && c.cfg[m].eager {
        AttemptJoinComparable(WithRange(c, c.Last(), u), n);
      }
    }
  }

  lemma AddPacketComparable(c: State, m: nat, p: Packet, n: nat)
    requires c.Shape() && m < |c.cfg| && n < |c.cfg| && Comparable(c, n)
    ensures Comparable(AddPacket(c, m, p), n)
  {
    hide AdjustSeekRange, StillRefreshing;
    if !(p.len == 0 || !c.cfg[m].selected || c.seeking) && !c.streams[m].refreshing {
      AppendShape(c, m, p);
      AppendGrows(c.ranges[c.Last()].queues[m], Stored(p, c.cfg[m]));
      AdjustComparable(AppendPacket(c, m, p), m, Some(c.ranges[c.Last()].queues[m].End()), n);
    }
  }

  lemma MarkEofComparable(c: State, m: nat, n: nat)
    requires c.Shape() && m < |c.cfg| && n < |c.cfg| && Comparable(c, n)
    ensures Comparable(MarkEof(c, m), n)
  {
    hide AdjustSeekRange;
    if !c.streams[m].eof {
      AdjustComparable(WithStream(c, m, c.streams[m].(eof := true)), m, None, n);
    }
  }

  // Ranges are pruned one after the other, and the current one is the last.
  lemma PruneStreamComparable(c: State, k: nat, n: nat)
    requires c.Shape() && k < |c.cfg| && n < |c.cfg| && Comparable(c, n)
    ensures Comparable(PruneStream(c, k), n)
  {
    hide PruneQueue, FreeEmptyRanges, PrunedRange;
    var r := c.ranges[0];
    var p := PruneQueue(r.queues[k], ReaderIn(c, 0, k), c.opts.seekableCache, c.cfg[k].preroll);
    PruneStreamUnfolded(c, k);
    if 0 != c.Last() {
      FreeEmptyComparable(WithRange(c, 0, PrunedRange(r, k, p, c.cfg)), n);
    }
  }

  lemma {:induction false} PruneComparable(c: State, n: nat)
    requires CacheOk(c) && c.Shape() && n < |c.cfg| && Comparable(c, n)
    ensures Comparable(Prune(c), n)
    decreases TotalPackets(c.ranges)
  {
    hide CacheOk, Comparable, Earliest, PruneStream, WithinBudget;
    if !WithinBudget(c) {
      var k := Earliest(c, 0, None);
      EarliestIsPrunable(c, 0, None);
      if k.Some? {
        PruneStreamOk(c, k.value);
        PruneStreamShrinks(c, k.value);
        PruneStreamComparable(c, k.value, n);
        PruneComparable(PruneStream(c, k.value), n);
      }
    }
  }

  lemma StepComparable(c: State, op: Op, n: nat)
    requires CacheOk(c) && c.Shape() && n < |c.cfg| && Comparable(c, n) && !op.Seek?
    ensures Comparable(Step(c, op), n)
  {
    hide CacheOk, AddPacket, MarkEof, Prune, FreeEmptyRanges, Advance;
    match op {
      case Deliver(m, p) =>
        if m < |c.cfg| {
          AddPacketComparable(c, m, p, n);
          AddPacketOk(c, m, p);
          OkHasShape(AddPacket(c, m, p));
          AddPacketConfig(c, m, p);
          PruneComparable(AddPacket(c, m, p), n);
        }
      case ReachEof(m) =>
        if m < |c.cfg| {
          MarkEofComparable(c, m, n);
        }
      case Read(m) =>
        if m < |c.cfg| {
          ReadOk(c, m);
          PruneComparable(WithStream(c, m, Advance(c.ranges[c.Last()].queues[m], c.streams[m])), n);
        }
      case MarkBof =>
      case ExecuteSeek =>
      case SetOptions(opts) =>
        OptionsOk(c, opts);
        PruneComparable(c.(opts := opts), n);
        PruneOutcome(c.(opts := opts));
        FreeEmptyComparable(Prune(c.(opts := opts)), n);
    }
  }

  // --- Runs ---

  // What the step hands out to the reader of stream n.
  function Gets(c: State, op: Op, n: nat): seq<Packet>
    requires CacheOk(c) && c.Shape() && n < |c.cfg|
  {
    if op == Read(n) && c.streams[n].readerHead.Some? then
      var q := c.ranges[c.Last()].queues[n];
      if q.Has(c.streams[n].readerHead.value) then [q.pkts[c.streams[n].readerHead.value - q.base]] else []
    else []
  }

  // One step of a run: the reader gets the packet at its place, or nothing.
  lemma StepReads(c: State, op: Op, n: nat, w: seq<Packet>, at: nat, at': nat, rp: nat)
    requires CacheOk(c) && c.Shape() && n < |c.cfg| && Counts(c.cfg[n]) && Ordered(w)
    requires Tracks(c, n, StoredAll(w, c.cfg[n]), at) && Moves(c, op, n, w, at, at')
    requires Placed(c, n, StoredAll(w, c.cfg[n]), rp) && !op.Seek?
    ensures var s, got := StoredAll(w, c.cfg[n]), Gets(c, op, n);
            rp + |got| <= |s| && got == s[rp..rp + |got|] && Placed(Step(c, op), n, s, rp + |got|)
  {
    hide CacheOk, Tracks, AddPacket, MarkEof, Prune, FreeEmptyRanges, Advance, Reading, Comparable, MarkBofStep;
    var s := StoredAll(w, c.cfg[n]);
    StoredOrdered(w, c.cfg[n]);
    ReadingBound(c, n, s, rp);
    StepComparable(c, op, n);
    match op {
      case Deliver(m, p) =>
        if m < |c.cfg| {
          if m == n {
            AddPacketReading(c, n, w, at, rp);
          } else {
            OtherPacketReading(c, m, p, n, s, at, rp);
          }
          AddPacketOk(c, m, p);
          OkHasShape(AddPacket(c, m, p));
          AddPacketConfig(c, m, p);
          PruneReading(AddPacket(c, m, p), n, s, rp);
        }
      case ReachEof(m) =>
        if m < |c.cfg| {
          MarkEofReading(c, m, n, s, at, rp);
        }
      case Read(m) =>
        if m < |c.cfg| {
          ReadOk(c, m);
          AdvanceReading(c, m, n, s, rp);
          PruneReading(WithStream(c, m, Advance(c.ranges[c.Last()].queues[m], c.streams[m])), n, s, rp + |Gets(c, op, n)|);
        }
      case MarkBof =>
        MarkBofReading(c, n, s, rp);
      case ExecuteSeek =>
        OtherReading(c, c.(seeking := false), n, s, rp);
      case SetOptions(opts) =>
        var c1 := c.(opts := opts);
        OptionsOk(c, opts);
        OtherReading(c, c1, n, s, rp);
        PruneReading(c1, n, s, rp);
        PruneOutcome(c1);
        FreeEmptyReading(Prune(c1), n, s, rp);
    }
  }

  lemma MarkBofReading(c: State, n: nat, s: seq<Packet>, rp: nat)
    requires c.Shape() && n < |c.cfg| && Reading(c, n, s, rp)
    ensures Reading(MarkBofStep(c), n, s, rp)
  {
    hide ReaderAt;
    SameReading(c, MarkBofStep(c), n, s, rp);
  }

  lemma OtherReading(c: State, c': State, n: nat, s: seq<Packet>, rp: nat)
    requires Reading(c, n, s, rp) && c'.ranges == c.ranges && c'.streams == c.streams
    ensures Reading(c', n, s, rp)
  {
  }

  lemma ReadingBound(c: State, n: nat, s: seq<Packet>, rp: nat)
    requires Reading(c, n, s, rp)
    ensures rp <= |s| && s[rp..rp] == []
  {
  }

  // Reading moves the reader of its own stream by one packet.
  lemma AdvanceReading(c: State, m: nat, n: nat, s: seq<Packet>, rp: nat)
    requires CacheOk(c) && c.Shape() && m < |c.cfg| && n < |c.cfg| && Reading(c, n, s, rp)
    ensures var got := Gets(c, Read(m), n);
            && rp + |got| <= |s| && got == s[rp..rp + |got|]
            && (c.streams[m].readerHead.None? ==> got == [])
            && Reading(WithStream(c, m, Advance(c.ranges[c.Last()].queues[m], c.streams[m])), n, s, rp + |got|)
  {
    hide CacheOk;
    var q, st := c.ranges[c.Last()].queues[n], c.streams[n];
    var hi := WindowEnd(q, st, s, rp);
    var c' := WithStream(c, m, Advance(c.ranges[c.Last()].queues[m], c.streams[m]));
    if m != n || st.readerHead.None? {
      SameReading(c, c', n, s, rp);
    } else {
      assert q.pkts[st.readerHead.value - q.base] == s[rp];
      assert ReaderUpTo(q, c'.streams[n], s, rp + 1, hi);
    }
  }

  // All that the reader of stream n gets in a run.
  function Reads(c: State, ops: seq<Op>, n: nat): seq<Packet>
    requires CacheOk(c) && c.Shape() && n < |c.cfg|
    decreases |ops|
  {
    if |ops| == 0 then []
    else
      StepOk(c, ops[0]);
      StepConfig(c, ops[0]);
      Gets(c, ops[0], n) + Reads(Step(c, ops[0]), ops[1..], n)
  }

  ghost predicate NoSeeks(ops: seq<Op>) {
    forall i :: 0 <= i < |ops| ==> !ops[i].Seek?
  }

  lemma NoSeeksLater(ops: seq<Op>)
    requires NoSeeks(ops) && |ops| > 0
    ensures !ops[0].Seek? && NoSeeks(ops[1..])
  {
  }

  // Over every run between two seeks, a reader that has a place gets the packets
  // of the stream one after the other from there on, whatever is pruned, joined
  // or sought below it.
  lemma {:induction false} RunReadsOn(c: State, ops: seq<Op>, n: nat, w: seq<Packet>, ats: seq<nat>, rp: nat)
    requires CacheOk(c) && c.Shape() && n < |c.cfg| && Counts(c.cfg[n]) && Ordered(w)
    requires |ats| > 0 && Tracks(c, n, StoredAll(w, c.cfg[n]), ats[0]) && Follows(c, ops, n, w, ats)
    requires Placed(c, n, StoredAll(w, c.cfg[n]), rp) && NoSeeks(ops)
    ensures var s, got := StoredAll(w, c.cfg[n]), Reads(c, ops, n);
            rp + |got| <= |s| && got == s[rp..rp + |got|] && Placed(Run(c, ops), n, s, rp + |got|)
    decreases |ops|
  {
    hide CacheOk, Tracks, Step, Moves, Gets, Reading, Comparable, NoSeeks;
    var s := StoredAll(w, c.cfg[n]);
    ReadingBound(c, n, s, rp);
    if |ops| > 0 {
      NoSeeksLater(ops);
      StepOk(c, ops[0]);
      StepConfig(c, ops[0]);
      StepTracks(c, ops[0], n, w, ats[0], ats[1]);
      StepReads(c, ops[0], n, w, ats[0], ats[1], rp);
      var got := Gets(c, ops[0], n);
      RunReadsOn(Step(c, ops[0]), ops[1..], n, w, ats[1..], rp + |got|);
      var more := Reads(Step(c, ops[0]), ops[1..], n);
      assert s[rp..rp + |got|] + s[rp + |got|..rp + |got| + |more|] == s[rp..rp + |got| + |more|];
    }
  }

  // --- Readers without a place ---

  // A reader with a packet does not wait for a keyframe.
  ghost predicate NotSkipping(st: Stream) {
    st.readerHead.Some? ==> !st.skipToKeyframe
  }

  ghost predicate NoneSkip(ss: seq<Stream>) {
    forall n :: 0 <= n < |ss| ==> NotSkipping(ss[n])
  }

  lemma AttemptJoinNoneSkip(c: State)
    requires c.Shape() && NoneSkip(c.streams)
    ensures NoneSkip(AttemptJoin(c).streams)
  {
    hide TrimAll, ClearRange, FreeEmpty, UpdateSeekRanges, JoinAll;
  }

  lemma AddPacketNoneSkip(c: State, n: nat, p: Packet)
    requires c.Shape() && n < |c.cfg| && NoneSkip(c.streams)
    ensures NoneSkip(AddPacket(c, n, p).streams)
  {
    hide AttemptJoin, UpdateSeekRanges, NeedsUpdate, AdjustQueue, StillRefreshing;
    if !(p.len == 0 || !c.cfg[n].selected || c.seeking) && !c.streams[n].refreshing {
      AppendShape(c, n, p);
      AdjustNoneSkip(AppendPacket(c, n, p), n, Some(c.ranges[c.Last()].queues[n].End()));
    }
  }

  lemma AdjustNoneSkip(c: State, n: nat, dp: Option<nat>)
    requires c.Shape() && n < |c.cfg| && NoneSkip(c.streams)
    ensures NoneSkip(AdjustSeekRange(c, n, dp).streams)
  {
    hide AttemptJoin, LatestMin, LatestMax, UpdateSeekRanges;
    if c.opts.seekableCache {
      var r := c.ranges[c.Last()];
      var r' := SetQueue(r, n, AdjustQueue(r.queues[n], dp, c.cfg[n].preroll));
      UpdatedSpan(r', c.cfg);
      if NeedsUpdate(r.queues[n], dp, r.seekEnd) && c.cfg[n].eager {
        AttemptJoinNoneSkip(WithRange(c, c.Last(), UpdateSeekRanges(r', c.cfg)));
      }
    }
  }

  lemma {:induction false} PruneStreams(c: State)
    requires CacheOk(c) && c.Shape()
    ensures Prune(c).streams == c.streams
  {
    PruneOutcome(c);
    hide CacheOk, Prune;
  }

  lemma SeekNoneSkip(c: State, to: SeekPoint, hr: bool, cached: bool, seekable: bool)
    requires c.Shape() && NoneSkip(c.streams)
    ensures NoneSkip(QueueSeek(c, to, hr, cached, seekable).streams)
  {
    hide FreeEmpty, TrimRange, ClearRange, AdjustTarget, QueueTarget, Unjoinable;
  }

  lemma StepNoneSkip(c: State, op: Op)
    requires CacheOk(c) && c.Shape() && NoneSkip(c.streams)
    ensures NoneSkip(Step(c, op).streams)
  {
    hide CacheOk, AddPacket, AdjustSeekRange, Prune, QueueSeek, NoneSkip, FreeEmpty;
    match op {
      case Deliver(n, p) =>
        if n < |c.cfg| {
          AddPacketNoneSkip(c, n, p);
          AddPacketOk(c, n, p);
          OkHasShape(AddPacket(c, n, p));
          PruneStreams(AddPacket(c, n, p));
        }
      case ReachEof(n) =>
        if n < |c.cfg| && !c.streams[n].eof {
          var c1 := WithStream(c, n, c.streams[n].(eof := true));
          SetNoneSkip(c.streams, n, c1.streams[n]);
          AdjustNoneSkip(c1, n, None);
        }
      case Read(n) =>
        if n < |c.cfg| {
          ReadOk(c, n);
          SetNoneSkip(c.streams, n, Advance(c.ranges[c.Last()].queues[n], c.streams[n]));
          PruneStreams(WithStream(c, n, Advance(c.ranges[c.Last()].queues[n], c.streams[n])));
        }
      case Seek(to, hr, cached, seekable) =>
        SeekNoneSkip(c, to, hr, cached, seekable);
      case MarkBof =>
      case ExecuteSeek =>
      case SetOptions(opts) =>
        OptionsOk(c, opts);
        PruneOutcome(c.(opts := opts));
        PruneStreams(c.(opts := opts));
    }
  }

  lemma SetNoneSkip(ss: seq<Stream>, n: nat, st: Stream)
    requires NoneSkip(ss) && n < |ss| && st.skipToKeyframe == ss[n].skipToKeyframe
    requires st.readerHead.Some? ==> ss[n].readerHead.Some?
    ensures NoneSkip(ss[n := st])
  {
  }

  // All runs from the initial state keep to this.
  lemma {:induction false} RunNoneSkip(c: State, ops: seq<Op>)
    requires CacheOk(c) && c.Shape() && NoneSkip(c.streams)
    ensures NoneSkip(Run(c, ops).streams)
    decreases |ops|
  {
    hide CacheOk, NoneSkip, Step;
    if |ops| > 0 {
      StepOk(c, ops[0]);
      StepNoneSkip(c, ops[0]);
      RunNoneSkip(Step(c, ops[0]), ops[1..]);
    }
  }

  // A reader that has a packet has a place.
  lemma ReaderHasPlace(c: State, n: nat, s: seq<Packet>, at: nat) returns (rp: nat)
    requires CacheOk(c) && c.Shape() && n < |c.cfg| && Tracks(c, n, s, at) && NoneSkip(c.streams)
    requires c.streams[n].readerHead.Some?
    ensures Placed(c, n, s, rp)
  {
    hide RangesOk, OthersSeekable;
    var q, st := c.ranges[c.Last()].queues[n], c.streams[n];
    assert ReaderOk(q, st) && Window(q, s) && NotSkipping(st);
    var hi: nat :| WindowAt(q, s, hi);
    rp := hi - (q.End() - st.readerHead.value);
    assert ReaderUpTo(q, st, s, rp, hi);
  }

  ghost predicate Piece(got: seq<Packet>, s: seq<Packet>, rp: nat) {
    rp + |got| <= |s| && got == s[rp..rp + |got|]
  }

  // Over every run between two seeks, whatever the state after the first one,
  // the decoder gets a contiguous piece of the stream.
  lemma {:induction false} RunReadsPiece(c: State, ops: seq<Op>, n: nat, w: seq<Packet>, ats: seq<nat>) returns (rp: nat)
    requires CacheOk(c) && c.Shape() && n < |c.cfg| && Counts(c.cfg[n]) && Ordered(w) && NoneSkip(c.streams)
    requires |ats| > 0 && Tracks(c, n, StoredAll(w, c.cfg[n]), ats[0]) && Follows(c, ops, n, w, ats)
    requires NoSeeks(ops)
    ensures Piece(Reads(c, ops, n), StoredAll(w, c.cfg[n]), rp)
    decreases |ops|
  {
    hide CacheOk, Tracks, Step, Moves, Placed, NoneSkip, NoSeeks;
    var s := StoredAll(w, c.cfg[n]);
    if |ops| == 0 {
      rp := 0;
      assert s[0..0] == [];
    } else if c.streams[n].readerHead.Some? {
      rp := ReaderHasPlace(c, n, s, ats[0]);
      RunReadsOn(c, ops, n, w, ats, rp);
    } else {
      NoSeeksLater(ops);
      StepOk(c, ops[0]);
      StepConfig(c, ops[0]);
      StepTracks(c, ops[0], n, w, ats[0], ats[1]);
      StepNoneSkip(c, ops[0]);
      rp := RunReadsPiece(Step(c, ops[0]), ops[1..], n, w, ats[1..]);
      assert Gets(c, ops[0], n) == [];
    }
  }

  // The place is that of the packet the demuxer delivers next, if the reader has
  // none and does not have to skip it. That is how reading begins after a
  // low-level seek.
  lemma DeliveredIsNext(c: State, n: nat, w: seq<Packet>, at: nat)
    requires CacheOk(c) && c.Shape() && n < |c.cfg| && Counts(c.cfg[n]) && Ordered(w) && at < |w|
    requires Tracks(c, n, StoredAll(w, c.cfg[n]), at)
    requires c.streams[n].readerHead.None? && (c.streams[n].skipToKeyframe ==> w[at].keyframe)
    requires !c.seeking && !c.streams[n].refreshing
    ensures Placed(Step(c, Deliver(n, w[at])), n, StoredAll(w, c.cfg[n]), at)
  {
    hide CacheOk, AdjustSeekRange, Prune, InSync, Windows, Untouched, ReaderAt, Window;
    var s, p := StoredAll(w, c.cfg[n]), w[at];
    StoredOrdered(w, c.cfg[n]);
    FirstReading(c, n, w, at);
    AppendTracks(c, n, w, at);
    AppendShape(c, n, p);
    var c1 := AppendPacket(c, n, p);
    var dp := Some(c.ranges[c.Last()].queues[n].End());
    AdjustReading(c1, n, dp, n, s, at + 1, at);
    AdjustComparable(c1, n, dp, n);
    AddPacketOk(c, n, p);
    OkHasShape(AddPacket(c, n, p));
    AddPacketConfig(c, n, p);
    PruneReading(AddPacket(c, n, p), n, s, at);
    PruneComparable(AddPacket(c, n, p), n);
  }

  lemma FirstReading(c: State, n: nat, w: seq<Packet>, at: nat)
    requires n < |c.cfg| && c.Shape() && at < |w| && !c.seeking && !c.streams[n].refreshing
    requires var s := StoredAll(w, c.cfg[n]);
             Ordered(s) && Tracks(c, n, s, at)
    requires c.streams[n].readerHead.None? && (c.streams[n].skipToKeyframe ==> w[at].keyframe)
    ensures Reading(AppendPacket(c, n, w[at]), n, StoredAll(w, c.cfg[n]), at)
    ensures Comparable(AppendPacket(c, n, w[at]), n)
  {
    hide Window;
    var s := StoredAll(w, c.cfg[n]);
    var q := c.ranges[c.Last()].queues[n];
    var c' := AppendPacket(c, n, w[at]);
    AppendWindow(q, s, at);
    AppendGrows(q, s[at]);
    assert ReaderUpTo(Append(q, s[at]), c'.streams[n], s, at, at + 1);
  }

  // --- Seeks ---

  // After an in-cache seek, the decoder gets the stream from the packet that was
  // found on, also if that is in another range.
  lemma SeekReads(c: State, i: nat, to: SeekPoint, hr: bool, n: nat, s: seq<Packet>)
    requires CacheOk(c) && c.Shape() && i < |c.ranges| && n < |c.cfg| && Ordered(s) && Windows(c.ranges, n, s)
    requires var to' := if hr then to else AdjustTarget(c.ranges[i], c.cfg, to, 0);
             QueueTarget(c.ranges[i].queues[n], c.cfg[n], to'.pts, to'.forward).Some?
    ensures var to' := if hr then to else AdjustTarget(c.ranges[i], c.cfg, to, 0);
            var q := c.ranges[i].queues[n];
            var k := QueueTarget(q, c.cfg[n], to'.pts, to'.forward).value;
            exists rp: nat :: k < |q.pkts| && rp < |s| && s[rp] == q.pkts[k] && Placed(CacheSeek(c, i, to, hr), n, s, rp)
  {
    hide Window, WindowAt, ReaderAt, SwitchRange, QueueTarget, AdjustTarget, RangeOk;
    var r := c.ranges[i];
    var to' := if hr then to else AdjustTarget(r, c.cfg, to, 0);
    var c1 := c.(streams := SeekStreams(c, r, to'));
    var q, k := r.queues[n], QueueTarget(r.queues[n], c.cfg[n], to'.pts, to'.forward).value;
    assert Window(q, s);
    TargetInQueue(c, i, n, to');
    var rp := FoundAt(q, c1.streams[n], s, k);
    if i != c.Last() {
      SwitchedWindows(c1, i, n, s);
      SwitchKeepsConfig(c1, i);
      SwitchKeepsReaders(c1, i, n);
    }
    var c' := CacheSeek(c, i, to, hr);
    SameReader(q, c1.streams[n], q, c'.streams[n], s, rp);
    assert Placed(c', n, s, rp);
  }

  lemma TargetInQueue(c: State, i: nat, n: nat, to: SeekPoint)
    requires CacheOk(c) && c.Shape() && i < |c.ranges| && n < |c.cfg|
    ensures var t := QueueTarget(c.ranges[i].queues[n], c.cfg[n], to.pts, to.forward);
            t.Some? ==> t.value < |c.ranges[i].queues[n].pkts|
  {
    hide QueueTarget, CumOk, KeyframesOk, StartOk;
    var q := c.ranges[i].queues[n];
    assert RangeOk(c.ranges[i], c.cfg) && QueueOk(q, c.cfg[n]);
    QueueTargetHas(q, c.cfg[n], to.pts, to.forward);
  }

  lemma FoundAt(q: Queue, st: Stream, s: seq<Packet>, k: nat) returns (rp: nat)
    requires Window(q, s) && k < |q.pkts| && st.readerHead == Some(q.base + k) && !st.skipToKeyframe
    ensures rp < |s| && s[rp] == q.pkts[k] && ReaderAt(q, st, s, rp)
  {
    var hi: nat :| WindowAt(q, s, hi);
    rp := hi - |q.pkts| + k;
    assert ReaderUpTo(q, st, s, rp, hi);
  }

  lemma SwitchKeepsReaders(c: State, i: nat, n: nat)
    requires c.Shape() && i < c.Last() && n < |c.cfg|
    ensures |SwitchRange(c, i).streams| == |c.streams|
    ensures SwitchRange(c, i).streams[n] == c.streams[n].(refreshing := false, eof := false)
  {
    hide TrimRange, ClearRange, FreeEmpty, Unjoinable;
  }
}
