// Where ranges end: what is taken to be cached has been read.
//
// The end of a queue is the time of a packet that was read into it. A range does
// not end after any of its queues, but for those that have reached the end of the
// file.

module SeekEnds {
  import opened Timestamps
  import opened Wrappers
  import opened Packets
  import opened RingIndex
  import opened SeekTarget
  import opened Queues
  import opened Ranges
  import opened Cache
  import opened CacheInvariants
  import opened Pruning
  import opened CacheRuns
  import opened Joins
  import opened SeekSoundness

  // --- The invariant ---

  ghost predicate Timed(s: seq<Packet>) {
    forall i :: 0 <= i < |s| ==> TimeOf(s[i]) >= NOPTS
  }

  // The queue has been filled up to position hi of the stream, and its end is the
  // time of a packet before that.
  ghost predicate EndAt(q: Queue, s: seq<Packet>, hi: nat) {
    WindowAt(q, s, hi) && exists k :: 0 <= k < hi && TimeOf(s[k]) == q.seekEnd
  }

  ghost predicate Reached(q: Queue, s: seq<Packet>) {
    q.seekStart >= NOPTS && (q.seekEnd != NOPTS ==> exists hi: nat :: EndAt(q, s, hi))
  }

  ghost predicate EndsRange(q: Queue, start: real, end: real, eof: bool) {
    start != NOPTS ==> (eof ==> q.isEof) && (q.isEof || (q.seekEnd != NOPTS && end <= q.seekEnd))
  }

  ghost predicate EndRange(r: Range, n: nat, s: seq<Packet>) {
    n < |r.queues| && Reached(r.queues[n], s) && EndsRange(r.queues[n], r.seekStart, r.seekEnd, r.isEof)
  }

  ghost predicate EndRanges(rs: seq<Range>, n: nat, s: seq<Packet>) {
    forall r :: 0 <= r < |rs| ==> EndRange(rs[r], n, s)
  }

  // --- Queues ---

  // Windows end at the same places, and so does the queue.
  lemma SameReached(q: Queue, r: Queue, s: seq<Packet>)
    requires Reached(q, s) && r.seekEnd == q.seekEnd && r.seekStart >= NOPTS
    requires forall hi: nat :: WindowAt(q, s, hi) ==> WindowAt(r, s, hi)
    ensures Reached(r, s)
  {
    if q.seekEnd != NOPTS {
      var hi: nat :| EndAt(q, s, hi);
      assert EndAt(r, s, hi);
    }
  }

  lemma RemoveHeadReached(q: Queue, s: seq<Packet>)
    requires Reached(q, s) && |q.pkts| > 0 && |q.cum| == |q.pkts|
    ensures Reached(RemoveHead(q), s)
  {
    forall hi: nat | WindowAt(q, s, hi)
      ensures WindowAt(RemoveHead(q), s, hi)
    {
    }
    SameReached(q, RemoveHead(q), s);
  }

  lemma {:induction false} TrimReached(q: Queue, s: seq<Packet>)
    requires Reached(q, s) && |q.cum| == |q.pkts|
    ensures var t := TrimNonKeyframes(q);
            Reached(t, s) && t.seekStart == q.seekStart && t.seekEnd == q.seekEnd && t.isEof == q.isEof
    decreases |q.pkts|
  {
    hide Reached;
    if |q.pkts| > 0 && !q.pkts[0].keyframe {
      RemoveHeadReached(q, s);
      TrimReached(RemoveHead(q), s);
    }
  }

  lemma {:induction false} PruneRunReached(q: Queue, reader: Option<nat>, seekable: bool, nonKf: bool, kf: bool, s: seq<Packet>)
    requires Reached(q, s) && |q.cum| == |q.pkts|
    ensures var p := PruneRun(q, reader, seekable, nonKf, kf).q;
            Reached(p, s) && p.seekStart == q.seekStart && p.seekEnd == q.seekEnd && p.isEof == q.isEof
    decreases |q.pkts|
  {
    hide Reached;
    if Prunable(q, reader) && !(q.pkts[0].keyframe && (kf || nonKf) && seekable) {
      RemoveHeadReached(q, s);
      PruneRunReached(RemoveHead(q), reader, seekable, nonKf, kf || q.pkts[0].keyframe, s);
    }
  }

  // The times of a run are those of packets of the stream.
  lemma RunTimes(q: Queue, s: seq<Packet>, hi: nat, i: nat)
    requires WindowAt(q, s, hi) && i < |q.pkts| && Timed(s)
    ensures RunMin(q.pkts, i) >= NOPTS
    ensures RunMax(q.pkts, i) != NOPTS ==> exists k :: 0 <= k < hi && TimeOf(s[k]) == RunMax(q.pkts, i)
  {
    var e, lo := RunEnd(q.pkts, i), hi - |q.pkts|;
    forall k | 0 <= k < |q.pkts|
      ensures q.pkts[k] == s[lo + k]
    {
    }
    MinTimeIsLeast(q.pkts, i, e);
    MaxTimeIsGreatest(q.pkts, i, e);
    if RunMax(q.pkts, i) != NOPTS {
      var k :| i <= k < e && TimeOf(q.pkts[k]) == RunMax(q.pkts, i);
      assert TimeOf(s[lo + k]) == RunMax(q.pkts, i);
    }
  }

  lemma PruneQueueReached(q: Queue, reader: Option<nat>, seekable: bool, preroll: real, s: seq<Packet>)
    requires Reached(q, s) && Window(q, s) && Ordered(s) && Timed(s) && |q.cum| == |q.pkts| && preroll >= 0.0
    ensures var p := PruneQueue(q, reader, seekable, preroll).q;
            Reached(p, s) && p.seekEnd == q.seekEnd && p.isEof == q.isEof
  {
    hide PruneRun, RunMin, Ordered, Timed, Reached;
    var nonKf := |q.pkts| > 0 && !q.pkts[0].keyframe;
    var p := PruneRun(q, reader, seekable, nonKf, false);
    PruneRunReached(q, reader, seekable, nonKf, false, s);
    if p.kfPruned {
      PruneRunNarrows(q, reader, seekable, nonKf, false, s);
      assert Window(p.q, s);
      RestartReached(p.q, preroll, s);
    }
  }

  lemma RestartReached(q: Queue, preroll: real, s: seq<Packet>)
    requires Reached(q, s) && Window(q, s) && Timed(s) && preroll >= 0.0
    ensures Reached(Restart(q, preroll), s)
  {
    hide RunMin, Timed;
    var k := NextKeyframe(q.pkts, 0);
    if k < |q.pkts| {
      var hi := WindowHi(q, s);
      RunTimes(q, s, hi, k);
    }
    SameReached(q, Restart(q, preroll), s);
  }

  lemma AdjustReached(q: Queue, dp: Option<nat>, preroll: real, s: seq<Packet>)
    requires Reached(q, s) && Window(q, s) && Timed(s) && preroll >= 0.0
    ensures Reached(AdjustQueue(q, dp, preroll), s)
  {
    hide RunMin, RunMax, Timed, MovesKeyframe;
    var r := AdjustQueue(q, dp, preroll);
    if Starts(q, dp) || Extends(q, dp) {
      var hi := WindowHi(q, s);
      RunTimes(q, s, hi, q.kfLatest.value - q.base);
      assert WindowAt(r, s, hi);
      assert Extends(q, dp) ==> EndAt(r, s, hi);
    }
    if !Extends(q, dp) {
      SameReached(q, r, s);
    }
  }

  lemma AppendReached(q: Queue, s: seq<Packet>, at: nat)
    requires Reached(q, s) && Ordered(s) && Window(q, s) && at < |s|
    requires forall hi: nat :: WindowAt(q, s, hi) ==> at == hi
    ensures Reached(Append(q, s[at]), s)
  {
    AppendWindow(q, s, at);
    if q.seekEnd != NOPTS {
      var hi: nat :| EndAt(q, s, hi);
      assert EndAt(Append(q, s[at]), s, at + 1);
    }
  }

  // The joined queue ends where the second one did.
  lemma JoinReached(q1: Queue, q2: Queue, s: seq<Packet>, cfg: StreamConfig, st: Stream)
    requires Ordered(s) && Window(q1, s) && Window(q2, s) && Counts(cfg) && |q2.cum| == |q2.pkts|
    requires TrimStream(q1, q2, cfg, st).Joinable? && Reached(q1, s) && Reached(q2, s)
    ensures Reached(Join(q1, TrimStream(q1, q2, cfg, st).q), s)
  {
    hide SamePacket, PastPacket, TrimToJoin, Join, Ordered, Window, WindowAt;
    var t := TrimStream(q1, q2, cfg, st).q;
    var r := Join(q1, t);
    JoinedPackets(q1, t);
    JoinKeepsStart(q1, t);
    JoinedEnd(q1, t);
    if q1.pkts == [] {
      SamePackets(q2, r, s);
      SameReached(q2, r.(seekStart := NOPTS), s) by { SamePackets(q2, r.(seekStart := NOPTS), s); }
      OnlyEnd(r.(seekStart := NOPTS), r, s);
    } else {
      var hi1 := WindowHi(q1, s);
      LastIsEnd(q1, s, hi1);
      TrimToJoinReached(q2, s, q1.pkts[|q1.pkts| - 1], st);
      TrimToJoinWindow(q2, s, q1.pkts[|q1.pkts| - 1], hi1, st);
      var hi: nat :| Continues(t, s, hi1, hi);
      WindowsMeet(q1, t, r, s, hi1, hi);
      EndsWith(t, r, s, hi);
    }
  }

  lemma JoinedEnd(q1: Queue, q2: Queue)
    ensures Join(q1, q2).seekEnd == q2.seekEnd && Join(q1, q2).isEof == q2.isEof
  {
    hide AddEntries, SizeAfterEntries, Renumber, Recounted;
  }

  lemma LastIsEnd(q: Queue, s: seq<Packet>, hi: nat)
    requires WindowAt(q, s, hi) && q.pkts != []
    ensures 0 < hi <= |s| && q.pkts[|q.pkts| - 1] == s[hi - 1]
  {
  }

  lemma OnlyEnd(q: Queue, r: Queue, s: seq<Packet>)
    requires Reached(q, s) && r == q.(seekStart := r.seekStart) && r.seekStart >= NOPTS
    ensures Reached(r, s)
  {
    if q.seekEnd != NOPTS {
      var hi: nat :| EndAt(q, s, hi);
      assert EndAt(r, s, hi);
    }
  }

  lemma EndsWith(t: Queue, r: Queue, s: seq<Packet>, hi: nat)
    requires Reached(t, s) && Ordered(s) && WindowAt(t, s, hi) && WindowAt(r, s, hi) && r.seekEnd == t.seekEnd && r.seekStart >= NOPTS
    ensures Reached(r, s)
  {
    hide Ordered;
    if t.seekEnd != NOPTS {
      var hi': nat :| EndAt(t, s, hi');
      WindowUnique(t, s, hi, hi');
      assert EndAt(r, s, hi);
    }
  }

  lemma {:induction false} TrimToJoinReached(q: Queue, s: seq<Packet>, end: Packet, st: Stream)
    requires Reached(q, s) && |q.cum| == |q.pkts|
    ensures var t := TrimToJoin(q, end, st); t.Joinable? ==> Reached(t.q, s)
    decreases |q.pkts|
  {
    hide Reached, SamePacket, PastPacket;
    if |q.pkts| > 0 {
      RemoveHeadReached(q, s);
      TrimToJoinReached(RemoveHead(q), s, end, st);
    }
  }

  // --- Ranges ---

  lemma {:induction false} MinEndBounds(qs: seq<Queue>, cfg: seq<StreamConfig>, m: nat, n: nat)
    requires n < m <= |qs| == |cfg| && Counts(cfg[n]) && !qs[n].isEof && qs[n].seekEnd != NOPTS
    ensures MinEnd(qs, cfg, m) != NOPTS && MinEnd(qs, cfg, m) <= qs[n].seekEnd
  {
    if n < m - 1 {
      MinEndBounds(qs, cfg, m - 1, n);
    }
  }

  // A recomputed range ends with its queues.
  lemma UpdatedEnd(r: Range, n: nat, cfg: seq<StreamConfig>, s: seq<Packet>)
    requires n < |r.queues| == |cfg| && Counts(cfg[n]) && Reached(r.queues[n], s)
    ensures EndRange(UpdateSeekRanges(r, cfg), n, s)
  {
    hide MinEnd, MaxEofEnd, MaxStart, MinBofStart, SparseStart;
    UpdatedSpan(r, cfg);
    var q := r.queues[n];
    if !q.isEof && q.seekEnd != NOPTS {
      MinEndBounds(r.queues, cfg, |cfg|, n);
    }
  }

  lemma ClearEnd(r: Range, n: nat, cfg: seq<StreamConfig>, s: seq<Packet>)
    requires n < |r.queues| == |cfg|
    ensures EndRange(ClearRange(r, cfg), n, s)
  {
    ClearedHasNoSpan(r, cfg);
  }

  // A queue was replaced, and the span did not change.
  lemma SetEnd(r: Range, m: nat, q: Queue, n: nat, s: seq<Packet>)
    requires EndRange(r, n, s) && m < |r.queues|
    requires m == n ==> Reached(q, s) && EndsRange(q, r.seekStart, r.seekEnd, r.isEof)
    ensures EndRange(SetQueue(r, m, q), n, s)
  {
    hide Reached;
  }

  lemma SetEndRange(rs: seq<Range>, i: nat, r: Range, n: nat, s: seq<Packet>)
    requires i < |rs| && EndRanges(rs, n, s) && EndRange(r, n, s)
    ensures EndRanges(rs[i := r], n, s)
  {
  }

  lemma FreeEmptyEnds(rs: seq<Range>, seekable: bool, n: nat, s: seq<Packet>)
    requires |rs| > 0 && EndRanges(rs, n, s)
    ensures EndRanges(FreeEmpty(rs, seekable), n, s)
  {
    hide EndRange;
    var e := FreeEmpty(rs, seekable);
    EvictionOutcome(rs, seekable);
    SubsequenceMembers(e[..|e| - 1], rs[..|rs| - 1]);
    forall r | 0 <= r < |e|
      ensures exists i :: 0 <= i < |rs| && rs[i] == e[r]
    {
      if r < |e| - 1 {
        assert e[r] in e[..|e| - 1] && e[r] in rs[..|rs| - 1];
      } else {
        assert rs[|rs| - 1] == e[r];
      }
    }
  }

  // --- Joining ---

  lemma DiscardEnds(c: State, i: nat, n: nat, s: seq<Packet>)
    requires EndRanges(c.ranges, n, s) && i < |c.ranges| && |c.ranges[i].queues| == |c.cfg|
    ensures EndRanges(FreeEmptyRanges(WithRange(c, i, ClearRange(c.ranges[i], c.cfg))).ranges, n, s)
  {
    hide Reached, ClearRange, FreeEmpty;
    assert EndRange(c.ranges[i], n, s);
    ClearEnd(c.ranges[i], n, c.cfg, s);
    SetEndRange(c.ranges, i, ClearRange(c.ranges[i], c.cfg), n, s);
    FreeEmptyEnds(c.ranges[i := ClearRange(c.ranges[i], c.cfg)], c.opts.seekableCache, n, s);
  }

  lemma JoinWithEnds(c: State, i: nat, qs2: seq<Queue>, n: nat, s: seq<Packet>)
    requires EndRanges(c.ranges, n, s) && c.Shape() && i < c.Last() && |qs2| == |c.cfg| && n < |c.cfg| && Counts(c.cfg[n])
    requires Reached(Join(c.ranges[c.Last()].queues[n], qs2[n]), s)
    ensures EndRanges(JoinWith(c, i, qs2).ranges, n, s)
  {
    hide UpdateSeekRanges, Join, Reached;
    var cur := c.ranges[c.Last()];
    var joined := cur.(queues := JoinAll(cur.queues, qs2));
    UpdatedEnd(joined, n, c.cfg, s);
    SetEndRange(c.ranges, c.Last(), UpdateSeekRanges(joined, c.cfg), n, s);
  }

  lemma AttemptJoinEnds(c: State, n: nat, s: seq<Packet>, at: nat)
    requires EndRanges(c.ranges, n, s) && Tracks(c, n, s, at) && Ordered(s) && c.Shape() && n < |c.cfg| && Counts(c.cfg[n])
    ensures EndRanges(AttemptJoin(c).ranges, n, s)
  {
    hide JoinWith, TrimStream, Join, FreeEmptyRanges, ClearRange, Reached, Tracks, Window, WindowAt, Ordered;
    NextIsNotCurrent(c.ranges, c.Last());
    var next := ChooseNext(c.ranges, c.Last());
    if next.Some? {
      var i, cur := next.value, c.ranges[c.Last()];
      assert EndRange(cur, n, s) && EndRange(c.ranges[i], n, s);
      var qs2 := TrimAll(cur.queues, c.ranges[i].queues, c.cfg, c.streams, |c.cfg|);
      if qs2.Some? {
        TrimAllAt(cur.queues, c.ranges[i].queues, c.cfg, c.streams, |c.cfg|, n);
        TracksWindows(c, n, s, at, i);
        JoinReached(cur.queues[n], c.ranges[i].queues[n], s, c.cfg[n], c.streams[n]);
        JoinWithEnds(c, i, qs2.value, n, s);
        JoinWithKeeps(c, i, qs2.value);
        DiscardEnds(JoinWith(c, i, qs2.value), i, n, s);
      } else {
        DiscardEnds(c, i, n, s);
      }
    }
  }

  // --- Adding packets, EOF ---

  lemma AdjustEndsRange(q: Queue, dp: Option<nat>, preroll: real, r: Range, eager: bool)
    requires EndsRange(q, r.seekStart, r.seekEnd, r.isEof)
    requires !(NeedsUpdate(q, dp, r.seekEnd) && eager) && eager
    ensures EndsRange(AdjustQueue(q, dp, preroll), r.seekStart, r.seekEnd, r.isEof)
  {
    hide LatestMin, LatestMax, MovesKeyframe;
  }

  lemma AdjustRangeEnds(c: State, m: nat, dp: Option<nat>, n: nat, s: seq<Packet>, at: nat)
    requires EndRanges(c.ranges, n, s) && Tracks(c, n, s, at) && Ordered(s) && Timed(s)
    requires c.Shape() && m < |c.cfg| && n < |c.cfg| && Counts(c.cfg[n]) && c.cfg[n].preroll >= 0.0
    ensures EndRanges(AdjustSeekRange(c, m, dp).ranges, n, s)
  {
    hide AttemptJoin, LatestMin, LatestMax, UpdateSeekRanges, Tracks, Narrows, Ordered, Timed, MovesKeyframe, NeedsUpdate, Reached,
         EndsRange;
    if c.opts.seekableCache {
      var r := c.ranges[c.Last()];
      var q := r.queues[m];
      var q' := AdjustQueue(q, dp, c.cfg[m].preroll);
      var r' := SetQueue(r, m, q');
      assert EndRange(r, n, s);
      TracksWindows(c, n, s, at, c.Last());
      if m == n {
        AdjustReached(q, dp, c.cfg[m].preroll, s);
      }
      var u := UpdateSeekRanges(r', c.cfg);
      UpdatedSpan(r', c.cfg);
      SameNarrows(r.queues[n], r'.queues[n], s);
      if NeedsUpdate(q, dp, r.seekEnd) && c.cfg[m].eager {
        UpdatedEnd(r', n, c.cfg, s);
        SetEndRange(c.ranges, c.Last(), u, n, s);
        NarrowerRangeTracks(c, c.Last(), u, n, s, at);
        AttemptJoinEnds(WithRange(c, c.Last(), u), n, s, at);
      } else {
        if m == n {
          AdjustEndsRange(q, dp, c.cfg[m].preroll, r, c.cfg[m].eager);
        }
        SetEnd(r, m, q', n, s);
        SetEndRange(c.ranges, c.Last(), r', n, s);
      }
    }
  }

  lemma AppendEnds(c: State, n: nat, w: seq<Packet>, at: nat)
    requires c.Shape() && n < |c.cfg| && Counts(c.cfg[n]) && at < |w| && !c.seeking && !c.streams[n].refreshing
    requires var s := StoredAll(w, c.cfg[n]);
             EndRanges(c.ranges, n, s) && Tracks(c, n, s, at) && Ordered(s)
    ensures EndRanges(AppendPacket(c, n, w[at]).ranges, n, StoredAll(w, c.cfg[n]))
  {
    hide Window, WindowAt, Ordered, Reached;
    var s := StoredAll(w, c.cfg[n]);
    var r := c.ranges[c.Last()];
    assert EndRange(r, n, s) && Window(r.queues[n], s);
    AppendReached(r.queues[n], s, at);
    SetEnd(r, n, Append(r.queues[n], s[at]), n, s);
    SetEndRange(c.ranges, c.Last(), SetQueue(r, n, Append(r.queues[n], s[at])), n, s);
  }

  lemma AddPacketEnds(c: State, n: nat, w: seq<Packet>, at: nat)
    requires c.Shape() && n < |c.cfg| && Counts(c.cfg[n]) && c.cfg[n].preroll >= 0.0 && Ordered(w) && at < |w|
    requires var s := StoredAll(w, c.cfg[n]);
             EndRanges(c.ranges, n, s) && Tracks(c, n, s, at) && Timed(s)
    ensures EndRanges(AddPacket(c, n, w[at]).ranges, n, StoredAll(w, c.cfg[n]))
  {
    hide AdjustSeekRange, EndRanges, AppendPacket, Tracks, Timed, StillRefreshing;
    var s := StoredAll(w, c.cfg[n]);
    StoredOrdered(w, c.cfg[n]);
    if !c.seeking && !c.streams[n].refreshing && w[at].len > 0 {
      AppendEnds(c, n, w, at);
      AppendTracks(c, n, w, at);
      AppendShape(c, n, w[at]);
      AdjustRangeEnds(AppendPacket(c, n, w[at]), n, Some(c.ranges[c.Last()].queues[n].End()), n, s, at + 1);
    }
  }

  lemma OtherPacketEnds(c: State, m: nat, p: Packet, n: nat, s: seq<Packet>, at: nat)
    requires EndRanges(c.ranges, n, s) && Tracks(c, n, s, at) && Ordered(s) && Timed(s)
    requires c.Shape() && m < |c.cfg| && m != n && n < |c.cfg| && Counts(c.cfg[n]) && c.cfg[n].preroll >= 0.0
    ensures EndRanges(AddPacket(c, m, p).ranges, n, s)
  {
    hide StillRefreshing, AdjustSeekRange, Tracks, Reached, Ordered, Timed;
    if !(p.len == 0 || !c.cfg[m].selected || c.seeking) && !c.streams[m].refreshing {
      var r := c.ranges[c.Last()];
      assert EndRange(r, n, s);
      SetEnd(r, m, Append(r.queues[m], Stored(p, c.cfg[m])), n, s);
      SetEndRange(c.ranges, c.Last(), SetQueue(r, m, Append(r.queues[m], Stored(p, c.cfg[m]))), n, s);
      OtherAppendTracks(c, m, p, n, s, at);
      AppendShape(c, m, p);
      AdjustRangeEnds(AppendPacket(c, m, p), m, Some(r.queues[m].End()), n, s, at);
    }
  }

  lemma MarkEofEnds(c: State, m: nat, n: nat, s: seq<Packet>, at: nat)
    requires EndRanges(c.ranges, n, s) && Tracks(c, n, s, at) && Ordered(s) && Timed(s)
    requires c.Shape() && m < |c.cfg| && n < |c.cfg| && Counts(c.cfg[n]) && c.cfg[n].preroll >= 0.0
    ensures EndRanges(MarkEof(c, m).ranges, n, s)
  {
    hide AdjustSeekRange, EndRanges, Tracks, Ordered, Timed;
    if !c.streams[m].eof {
      var c' := WithStream(c, m, c.streams[m].(eof := true));
      SameSyncTracks(c, c', n, s, at);
      AdjustRangeEnds(c', m, None, n, s, at);
    }
  }

  // --- Pruning ---

  lemma PrunedRangeEnds(r: Range, k: nat, p: Pruned, n: nat, cfg: seq<StreamConfig>, s: seq<Packet>)
    requires EndRange(r, n, s) && |r.queues| == |cfg| && k < |cfg| && n < |cfg| && Counts(cfg[n])
    requires k == n ==> Reached(p.q, s) && p.q.seekEnd == r.queues[n].seekEnd && p.q.isEof == r.queues[n].isEof
    ensures EndRange(PrunedRange(r, k, p, cfg), n, s)
  {
    hide Reached, UpdateSeekRanges;
    if p.kfPruned && StartMoved(r, p.q) {
      UpdatedEnd(SetQueue(r, k, p.q), n, cfg, s);
    } else {
      SetEnd(r, k, p.q, n, s);
    }
  }

  lemma PruneStreamEnds(c: State, k: nat, n: nat, s: seq<Packet>, at: nat)
    requires c.Shape() && k < |c.cfg| && n < |c.cfg| && Counts(c.cfg[n]) && c.cfg[n].preroll >= 0.0
    requires EndRanges(c.ranges, n, s) && Tracks(c, n, s, at) && Ordered(s) && Timed(s)
    ensures EndRanges(PruneStream(c, k).ranges, n, s)
  {
    hide Reached, PrunedRange, PruneQueue, FreeEmpty, PruneStream, Window, Ordered, Timed, InSync, EndsRange;
    var r, reader := c.ranges[0], ReaderIn(c, 0, k);
    assert EndRange(r, n, s) && Window(r.queues[n], s);
    var p := PruneQueue(r.queues[k], reader, c.opts.seekableCache, c.cfg[k].preroll);
    if k == n {
      PruneQueueReached(r.queues[n], reader, c.opts.seekableCache, c.cfg[n].preroll, s);
    }
    PrunedRangeEnds(r, k, p, n, c.cfg, s);
    PruneStreamUnfolded(c, k);
    SetEndRange(c.ranges, 0, PrunedRange(r, k, p, c.cfg), n, s);
    FreeEmptyEnds(c.ranges[0 := PrunedRange(r, k, p, c.cfg)], c.opts.seekableCache, n, s);
  }

  lemma {:induction false} PruneEnds(c: State, n: nat, s: seq<Packet>, at: nat)
    requires CacheOk(c) && c.Shape() && n < |c.cfg| && Counts(c.cfg[n]) && c.cfg[n].preroll >= 0.0
    requires EndRanges(c.ranges, n, s) && Tracks(c, n, s, at) && Ordered(s) && Timed(s)
    ensures EndRanges(Prune(c).ranges, n, s)
    decreases TotalPackets(c.ranges)
  {
    hide CacheOk, EndRanges, Earliest, PruneStream, WithinBudget, Tracks, Ordered, Timed;
    if !WithinBudget(c) {
      var k := Earliest(c, 0, None);
      EarliestIsPrunable(c, 0, None);
      if k.Some? {
        PruneStreamOk(c, k.value);
        PruneStreamShrinks(c, k.value);
        PruneStreamTracks(c, k.value, n, s, at);
        PruneStreamEnds(c, k.value, n, s, at);
        PruneEnds(PruneStream(c, k.value), n, s, at);
      }
    }
  }

  // --- Seeking ---

  lemma TrimRangeEnds(r: Range, n: nat, cfg: seq<StreamConfig>, s: seq<Packet>)
    requires QueuesShape(r, cfg) && n < |cfg| && EndRange(r, n, s)
    ensures EndRange(TrimRange(r, cfg), n, s)
  {
    hide Reached;
    TrimReached(r.queues[n], s);
  }

  lemma SwitchRangeEnds(c: State, i: nat, n: nat, s: seq<Packet>)
    requires c.Shape() && i < c.Last() && n < |c.cfg| && EndRanges(c.ranges, n, s)
    ensures EndRanges(SwitchRange(c, i).ranges, n, s)
  {
    hide EndRange, TrimRange, ClearRange, Unjoinable, FreeEmpty;
    var last := c.ranges[c.Last()];
    var prev := TrimRange(last, c.cfg);
    TrimRangeEnds(last, n, c.cfg, s);
    TrimKeepsCount(last, c.cfg);
    ClearEnd(prev, n, c.cfg, s);
    var prev' := if Unjoinable(c) then ClearRange(prev, c.cfg) else prev;
    var rs := c.ranges[..i] + c.ranges[i + 1..c.Last()] + [prev'] + [c.ranges[i]];
    forall r | 0 <= r < |rs|
      ensures EndRange(rs[r], n, s)
    {
      assert rs[r] == if r < i then c.ranges[r] else if r < c.Last() - 1 then c.ranges[r + 1]
                      else if r == c.Last() - 1 then prev' else c.ranges[i];
    }
    FreeEmptyEnds(rs, c.opts.seekableCache, n, s);
  }

  lemma CacheSeekEnds(c: State, i: nat, to: SeekPoint, hr: bool, n: nat, s: seq<Packet>)
    requires c.Shape() && i < |c.ranges| && n < |c.cfg| && EndRanges(c.ranges, n, s)
    ensures EndRanges(CacheSeek(c, i, to, hr).ranges, n, s)
  {
    hide EndRanges, SeekStreams, SwitchRange, AdjustTarget;
    var r := c.ranges[i];
    var to' := if hr then to else AdjustTarget(r, c.cfg, to, 0);
    var c1 := c.(streams := SeekStreams(c, r, to'));
    if i != c.Last() {
      SwitchRangeEnds(c1, i, n, s);
    }
  }

  lemma NewRangeEnds(cfg: seq<StreamConfig>, n: nat, s: seq<Packet>)
    requires n < |cfg|
    ensures EndRange(NewRange(cfg), n, s)
  {
  }

  lemma FreshRangeEnds(c: State, n: nat, s: seq<Packet>)
    requires c.Shape() && n < |c.cfg| && EndRanges(c.ranges, n, s)
    ensures EndRanges(FreshRange(c).ranges, n, s)
  {
    hide EndRange, SwitchRange, ClearRange;
    var last := c.ranges[c.Last()];
    if !c.opts.seekableCache {
      ClearEnd(last, n, c.cfg, s);
      SetEndRange(c.ranges, c.Last(), ClearRange(last, c.cfg), n, s);
    } else {
      NewRangeEnds(c.cfg, n, s);
      SwitchRangeEnds(c.(ranges := c.ranges[..c.Last()] + [NewRange(c.cfg), last]), c.Last(), n, s);
    }
  }

  lemma QueueSeekEnds(c: State, to: SeekPoint, hr: bool, cached: bool, seekable: bool, n: nat, s: seq<Packet>)
    requires c.Shape() && n < |c.cfg| && EndRanges(c.ranges, n, s)
    ensures EndRanges(QueueSeek(c, to, hr, cached, seekable).ranges, n, s)
  {
    hide CacheSeek, FreshRange, EndRanges;
    var k := if c.opts.seekableCache then FindCacheRange(c, to.pts, 0) else |c.ranges|;
    if to.pts == NOPTS {
    } else if k < |c.ranges| {
      CacheSeekEnds(ClearReaders(c), k, to, hr, n, s);
    } else if !(cached || !seekable) {
      FreshRangeEnds(ClearReaders(c), n, s);
    }
  }

  lemma MarkBofEnds(c: State, n: nat, s: seq<Packet>)
    requires EndRanges(c.ranges, n, s) && c.Shape() && n < |c.cfg|
    ensures EndRanges(MarkBofStep(c).ranges, n, s)
  {
    var r, r' := c.ranges[c.Last()], MarkBofStep(c).ranges[c.Last()];
    assert EndRange(r, n, s);
    SameReached(r.queues[n], r'.queues[n], s) by {
      assert forall hi: nat :: WindowAt(r.queues[n], s, hi) == WindowAt(r'.queues[n], s, hi);
    }
    SetEndRange(c.ranges, c.Last(), r', n, s);
  }

  // --- Runs ---

  lemma StepEnds(c: State, op: Op, n: nat, w: seq<Packet>, at: nat, at': nat)
    requires CacheOk(c) && c.Shape() && n < |c.cfg| && Counts(c.cfg[n]) && c.cfg[n].preroll >= 0.0 && Ordered(w)
    requires var s := StoredAll(w, c.cfg[n]); EndRanges(c.ranges, n, s) && Tracks(c, n, s, at) && Timed(s)
    requires Moves(c, op, n, w, at, at')
    ensures EndRanges(Step(c, op).ranges, n, StoredAll(w, c.cfg[n]))
  {
    hide CacheOk, Tracks, EndRanges, Timed, AddPacket, MarkEof, Prune, QueueSeek, FreeEmpty, Advance, ResumesBefore, Ordered;
    var s := StoredAll(w, c.cfg[n]);
    StoredOrdered(w, c.cfg[n]);
    match op {
      case Deliver(m, p) =>
        if m < |c.cfg| {
          if m == n {
            AddPacketEnds(c, n, w, at);
            AddPacketTracks(c, n, w, at);
          } else {
            OtherPacketEnds(c, m, p, n, s, at);
            OtherPacketTracks(c, m, p, n, s, at);
          }
          AddPacketOk(c, m, p);
          OkHasShape(AddPacket(c, m, p));
          AddPacketConfig(c, m, p);
          PruneEnds(AddPacket(c, m, p), n, s, at');
        }
      case ReachEof(m) =>
        if m < |c.cfg| {
          MarkEofEnds(c, m, n, s, at);
        }
      case Read(m) =>
        if m < |c.cfg| {
          ReadOk(c, m);
          AdvanceTracks(c, m, n, s, at);
          PruneEnds(WithStream(c, m, Advance(c.ranges[c.Last()].queues[m], c.streams[m])), n, s, at);
        }
      case Seek(to, hr, cached, seekable) =>
        QueueSeekEnds(c, to, hr, cached, seekable, n, s);
      case MarkBof =>
        MarkBofEnds(c, n, s);
      case ExecuteSeek =>
      case SetOptions(opts) =>
        var c1 := c.(opts := opts);
        OptionsOk(c, opts);
        SameSyncTracks(c, c1, n, s, at);
        PruneEnds(c1, n, s, at);
        PruneOutcome(c1);
        FreeEmptyEnds(Prune(c1).ranges, Prune(c1).opts.seekableCache, n, s);
    }
  }

  // Over every run, the ends of the queues are times of packets that were read, and
  // ranges end with their queues.
  lemma {:induction false} RunKeepsEnds(c: State, ops: seq<Op>, n: nat, w: seq<Packet>, ats: seq<nat>)
    requires CacheOk(c) && c.Shape() && n < |c.cfg| && Counts(c.cfg[n]) && c.cfg[n].preroll >= 0.0 && Ordered(w)
    requires var s := StoredAll(w, c.cfg[n]);
             |ats| > 0 && Tracks(c, n, s, ats[0]) && EndRanges(c.ranges, n, s) && Timed(s)
    requires Follows(c, ops, n, w, ats)
    ensures EndRanges(Run(c, ops).ranges, n, StoredAll(w, c.cfg[n])) && Run(c, ops).cfg == c.cfg
    decreases |ops|
  {
    hide CacheOk, Tracks, EndRanges, Timed, Step, Moves;
    if |ops| > 0 {
      StepOk(c, ops[0]);
      StepConfig(c, ops[0]);
      StepTracks(c, ops[0], n, w, ats[0], ats[1]);
      StepEnds(c, ops[0], n, w, ats[0], ats[1]);
      RunKeepsEnds(Step(c, ops[0]), ops[1..], n, w, ats[1..]);
    }
  }

  lemma InitialEnds(cfg: seq<StreamConfig>, opts: Options, n: nat, s: seq<Packet>)
    requires n < |cfg|
    ensures EndRanges(Initial(cfg, opts).ranges, n, s) && Initial(cfg, opts).cfg == cfg
  {
    NewRangeEnds(cfg, n, s);
  }

  // --- What is sought in the cache ---

  // A packet at or after the position has been read into the queue.
  ghost predicate ReadTo(q: Queue, s: seq<Packet>, pts: real) {
    exists hi: nat :: WindowAt(q, s, hi) && TimeBefore(s, hi, pts)
  }

  ghost predicate TimeBefore(s: seq<Packet>, hi: nat, pts: real) {
    exists k :: 0 <= k < hi && k < |s| && TimeOf(s[k]) >= pts
  }

  lemma InRangeIsRead(r: Range, n: nat, s: seq<Packet>, pts: real)
    requires EndRange(r, n, s) && InRange(r, pts)
    ensures r.queues[n].isEof || ReadTo(r.queues[n], s, pts)
  {
    var q := r.queues[n];
    if !q.isEof {
      var hi: nat :| EndAt(q, s, hi);
      assert TimeBefore(s, hi, pts);
    }
  }

  ghost predicate IsBlank(r: Range) {
    r.seekStart == NOPTS && forall n :: 0 <= n < |r.queues| ==> r.queues[n].pkts == []
  }

  // A reader that has no packet yet, and takes the first one.
  predicate Restarts(s: Stream) {
    s.readerHead.None? && !s.skipToKeyframe && !s.eof
  }

  ghost predicate NoneEnded(ss: seq<Stream>) {
    forall n :: 0 <= n < |ss| ==> !ss[n].eof
  }

  ghost predicate AllRestart(ss: seq<Stream>) {
    forall n :: 0 <= n < |ss| ==> Restarts(ss[n])
  }

  // What a seek does. It is done in the cache, in the first range that has the
  // position, or else the demuxer is asked to seek there, if it can.
  lemma QueueSeekOutcome(c: State, to: SeekPoint, hr: bool, cached: bool, seekable: bool)
    requires c.Shape() && to.pts != NOPTS
    ensures var c', k := QueueSeek(c, to, hr, cached, seekable), if c.opts.seekableCache then FindCacheRange(c, to.pts, 0) else |c.ranges|;
            && |c'.ranges| > 0
            && if k < |c.ranges| then
                 && c'.ranges[|c'.ranges| - 1] == c.ranges[k] && NoneEnded(c'.streams)
                 && (k == c.Last() ==> c'.seeking == c.seeking && c'.seekPts == c.seekPts)
                 && (k < c.Last() ==> c'.seeking && c'.seekPts == c.ranges[k].seekEnd - 1.0)
               else if cached || !seekable then c' == c
               else c'.seeking && c'.seekPts == to.pts && IsBlank(c'.ranges[|c'.ranges| - 1]) && AllRestart(c'.streams)
  {
    hide CacheSeek, FreshRange;
    var k := if c.opts.seekableCache then FindCacheRange(c, to.pts, 0) else |c.ranges|;
    if k < |c.ranges| {
      CacheSeekOutcome(ClearReaders(c), k, to, hr);
    } else if !(cached || !seekable) {
      FreshRangeOutcome(ClearReaders(c));
    }
  }

  lemma CacheSeekOutcome(c: State, k: nat, to: SeekPoint, hr: bool)
    requires c.Shape() && k < |c.ranges|
    ensures var c' := CacheSeek(c, k, to, hr);
            && |c'.ranges| > 0 && c'.ranges[|c'.ranges| - 1] == c.ranges[k]
            && (NoneEnded(c.streams) ==> NoneEnded(c'.streams))
            && (k == c.Last() ==> c'.seeking == c.seeking && c'.seekPts == c.seekPts)
            && (k < c.Last() ==> c'.seeking && c'.seekPts == c.ranges[k].seekEnd - 1.0)
  {
    hide SwitchRange, AdjustTarget, QueueTarget;
    if k < c.Last() {
      var to' := if hr then to else AdjustTarget(c.ranges[k], c.cfg, to, 0);
      SwitchesTo(c.(streams := SeekStreams(c, c.ranges[k], to')), k);
    }
  }

  lemma FreshRangeOutcome(c: State)
    requires c.Shape()
    ensures var c' := FreshRange(c);
            && |c'.ranges| > 0 && IsBlank(c'.ranges[|c'.ranges| - 1])
            && (AllRestart(c.streams) ==> AllRestart(c'.streams))
  {
    hide SwitchRange, ClearRange;
    if c.opts.seekableCache {
      SwitchesTo(c.(ranges := c.ranges[..c.Last()] + [NewRange(c.cfg), c.ranges[c.Last()]]), c.Last());
    } else {
      ClearedHasNoSpan(c.ranges[c.Last()], c.cfg);
    }
  }

  lemma SwitchesTo(c: State, i: nat)
    requires c.Shape() && i < c.Last()
    ensures var c' := SwitchRange(c, i);
            && |c'.ranges| > 0 && c'.ranges[|c'.ranges| - 1] == c.ranges[i] && |c'.streams| == |c.streams|
            && forall n :: 0 <= n < |c.streams| ==> c'.streams[n] == c.streams[n].(refreshing := false, eof := false)
  {
    hide TrimRange, ClearRange, Unjoinable, Kept, Evict;
  }

  // The streams that are known.
  ghost predicate AllEnds(c: State, ss: seq<seq<Packet>>) {
    |ss| == |c.cfg| && forall n :: 0 <= n < |ss| && Counts(c.cfg[n]) ==> EndRanges(c.ranges, n, ss[n])
  }

  // A position that is sought in the cache is one that has been read: each queue of
  // the range that counts is at the end of the file, or has got a packet at or after
  // the position.
  lemma CachedIsRead(c: State, to: SeekPoint, hr: bool, cached: bool, seekable: bool, ss: seq<seq<Packet>>, n: nat)
    requires c.Shape() && to.pts != NOPTS && AllEnds(c, ss) && n < |c.cfg| && Counts(c.cfg[n])
    requires c.opts.seekableCache && FindCacheRange(c, to.pts, 0) < |c.ranges|
    ensures var c' := QueueSeek(c, to, hr, cached, seekable);
            && |c'.ranges| > 0 && n < |c'.ranges[|c'.ranges| - 1].queues|
            && var q := c'.ranges[|c'.ranges| - 1].queues[n];
               q.isEof || ReadTo(q, ss[n], to.pts)
  {
    hide Reached, QueueSeek;
    var k := FindCacheRange(c, to.pts, 0);
    FoundIsFirst(c, to.pts, 0);
    QueueSeekOutcome(c, to, hr, cached, seekable);
    assert EndRange(c.ranges[k], n, ss[n]);
    InRangeIsRead(c.ranges[k], n, ss[n], to.pts);
  }

  // Conversely, the demuxer seeks to a position that no range has read up to.
  lemma UnreadIsSought(c: State, to: SeekPoint, hr: bool, ss: seq<seq<Packet>>)
    requires c.Shape() && to.pts != NOPTS && AllEnds(c, ss)
    requires forall i :: 0 <= i < |c.ranges| ==> NotRead(c.ranges[i], c.cfg, ss, to.pts)
    ensures var c' := QueueSeek(c, to, hr, false, true); c'.seeking && c'.seekPts == to.pts
  {
    hide Reached, QueueSeek, ReadTo;
    FoundIsFirst(c, to.pts, 0);
    QueueSeekOutcome(c, to, hr, false, true);
    var k := FindCacheRange(c, to.pts, 0);
    if k < |c.ranges| {
      assert NotRead(c.ranges[k], c.cfg, ss, to.pts);
      var n: nat :| n < |c.cfg| && n < |c.ranges[k].queues| && n < |ss|
                    && Counts(c.cfg[n]) && !c.ranges[k].queues[n].isEof && !ReadTo(c.ranges[k].queues[n], ss[n], to.pts);
      assert EndRange(c.ranges[k], n, ss[n]);
      InRangeIsRead(c.ranges[k], n, ss[n], to.pts);
    }
  }

  // Some queue that counts is not at the end of the file, and has got no packet at
  // or after the position.
  ghost predicate NotRead(r: Range, cfg: seq<StreamConfig>, ss: seq<seq<Packet>>, pts: real) {
    exists n: nat :: n < |cfg| && n < |r.queues| && n < |ss|
                     && Counts(cfg[n]) && !r.queues[n].isEof && !ReadTo(r.queues[n], ss[n], pts)
  }

  // What all streams do in a run.
  ghost predicate AllFollow(c: State, ops: seq<Op>, ws: seq<seq<Packet>>)
    requires CacheOk(c) && c.Shape()
  {
    && |ws| == |c.cfg|
    && forall n :: 0 <= n < |ws| && Counts(c.cfg[n]) ==>
         && Ordered(ws[n]) && Timed(StoredAll(ws[n], c.cfg[n])) && c.cfg[n].preroll >= 0.0
         && exists ats: seq<nat> :: |ats| > 0 && Follows(c, ops, n, ws[n], ats)
  }

  function StoredStreams(ws: seq<seq<Packet>>, cfg: seq<StreamConfig>): (ss: seq<seq<Packet>>)
    requires |ws| == |cfg|
    ensures |ss| == |cfg| && forall n :: 0 <= n < |ss| ==> ss[n] == StoredAll(ws[n], cfg[n])
  {
    seq(|ws|, n requires 0 <= n < |ws| == |cfg| => StoredAll(ws[n], cfg[n]))
  }

  // So after every run from the initial state, a seek that is done in the cache goes
  // to what has been read, and one to what no range has read is not.
  lemma RunEnds(cfg: seq<StreamConfig>, opts: Options, ops: seq<Op>, ws: seq<seq<Packet>>)
    requires |ws| == |cfg| && AllFollow(Initial(cfg, opts), ops, ws)
    ensures AllEnds(Run(Initial(cfg, opts), ops), StoredStreams(ws, cfg))
  {
    hide CacheOk, Tracks, EndRanges, Timed, Initial, Follows, Run, Ordered;
    var c := Initial(cfg, opts);
    InitialConfig(cfg, opts);
    RunConfig(c, ops);
    forall n | 0 <= n < |cfg| && Counts(cfg[n])
      ensures EndRanges(Run(c, ops).ranges, n, StoredAll(ws[n], cfg[n]))
    {
      var ats: seq<nat> :| |ats| > 0 && Follows(c, ops, n, ws[n], ats);
      InitialOk(cfg, opts);
      InitialEnds(cfg, opts, n, StoredAll(ws[n], cfg[n]));
      RunKeepsEnds(c, ops, n, ws[n], ats);
    }
  }

  lemma InitialConfig(cfg: seq<StreamConfig>, opts: Options)
    ensures Initial(cfg, opts).cfg == cfg
  {
  }

  lemma {:induction false} RunConfig(c: State, ops: seq<Op>)
    requires CacheOk(c) && c.Shape()
    ensures Run(c, ops).cfg == c.cfg
    decreases |ops|
  {
    hide CacheOk, Step;
    if |ops| > 0 {
      StepOk(c, ops[0]);
      StepConfig(c, ops[0]);
      RunConfig(Step(c, ops[0]), ops[1..]);
    }
  }

  // --- Where demuxing resumes ---

  // A seek of the demuxer to a position skips no packets after it.
  ghost predicate SkipsNothingAfter(s: seq<Packet>, at: nat, pts: real) {
    forall k :: 0 <= k < at && k < |s| ==> TimeOf(s[k]) <= pts
  }

  // What is asked of low-level seeks to the end of a cached range: they go back to a
  // packet that is in the queue, or was.
  lemma ResumesInQueue(r: Range, n: nat, s: seq<Packet>, at: nat)
    requires EndRange(r, n, s) && Ordered(s) && r.seekStart != NOPTS && SkipsNothingAfter(s, at, r.seekEnd - 1.0)
    ensures r.queues[n].isEof || forall hi: nat :: WindowAt(r.queues[n], s, hi) ==> at < hi
    ensures r.queues[n].isEof || !r.queues[n].correctDts || !ByDts(s) || ResumesBefore(r.queues[n], s, at)
  {
    var q := r.queues[n];
    if !q.isEof {
      var hi: nat :| EndAt(q, s, hi);
      forall hi': nat | WindowAt(q, s, hi')
        ensures hi' == hi
      {
        WindowUnique(q, s, hi, hi');
      }
    }
  }

  // So where the cache sends the demuxer, after a seek in another range than the
  // current one, is before the end of all queues of that range.
  lemma SeekResumes(c: State, to: SeekPoint, hr: bool, cached: bool, seekable: bool, n: nat, s: seq<Packet>, at: nat)
    requires c.Shape() && to.pts != NOPTS && n < |c.cfg| && EndRanges(c.ranges, n, s) && Ordered(s)
    requires c.opts.seekableCache && FindCacheRange(c, to.pts, 0) < c.Last()
    requires SkipsNothingAfter(s, at, QueueSeek(c, to, hr, cached, seekable).seekPts)
    ensures var c' := QueueSeek(c, to, hr, cached, seekable);
            && c'.seeking && |c'.ranges| > 0 && n < |c'.ranges[|c'.ranges| - 1].queues|
            && var q := c'.ranges[|c'.ranges| - 1].queues[n];
               && (q.isEof || forall hi: nat :: WindowAt(q, s, hi) ==> at < hi)
               && (q.isEof || !q.correctDts || !ByDts(s) || ResumesBefore(q, s, at))
  {
    hide QueueSeek, EndRange, SkipsNothingAfter, Ordered, ByDts, ResumesBefore, WindowAt;
    var k := FindCacheRange(c, to.pts, 0);
    FoundIsFirst(c, to.pts, 0);
    QueueSeekOutcome(c, to, hr, cached, seekable);
    ResumesInQueue(c.ranges[k], n, s, at);
  }

  // The same after ranges were joined.
  lemma JoinResumes(c: State, i: nat, n: nat, s: seq<Packet>, at: nat, at': nat)
    requires EndRanges(c.ranges, n, s) && Tracks(c, n, s, at) && Ordered(s) && c.Shape() && n < |c.cfg| && Counts(c.cfg[n])
    requires JoinsWith(c) == Some(i) && c.ranges[i].seekStart != NOPTS
    requires SkipsNothingAfter(s, at', AttemptJoin(c).seekPts)
    ensures var c' := AttemptJoin(c);
            && c'.seeking && |c'.ranges| > 0 && n < |c'.ranges[|c'.ranges| - 1].queues|
            && var q := c'.ranges[|c'.ranges| - 1].queues[n];
               q.isEof || forall hi: nat :: WindowAt(q, s, hi) ==> at' < hi
  {
    hide AttemptJoin, TrimAll, ChooseNext, Tracks, Ordered, WindowAt, TrimStream;
    var cur, next := c.ranges[c.Last()], c.ranges[i];
    var qs2 := TrimAll(cur.queues, next.queues, c.cfg, c.streams, |c.cfg|).value;
    TrimAllAt(cur.queues, next.queues, c.cfg, c.streams, |c.cfg|, n);
    TrimStreamKeeps(cur.queues[n], next.queues[n], c.cfg[n], c.streams[n]);
    JoinOutcome(c, i, qs2);
    AttemptJoinEnds(c, n, s, at);
    var c' := AttemptJoin(c);
    assert EndRange(next, n, s) && EndRange(c'.ranges[|c'.ranges| - 1], n, s);
    JoinedInQueue(c'.ranges[|c'.ranges| - 1].queues[n], next, n, s, at');
  }

  lemma JoinedInQueue(q: Queue, next: Range, n: nat, s: seq<Packet>, at: nat)
    requires Reached(q, s) && EndRange(next, n, s) && Ordered(s) && next.seekStart != NOPTS
    requires q.seekEnd == next.queues[n].seekEnd && q.isEof == next.queues[n].isEof
    requires SkipsNothingAfter(s, at, next.seekEnd - 1.0)
    ensures q.isEof || forall hi: nat :: WindowAt(q, s, hi) ==> at < hi
  {
    if !q.isEof {
      var hi: nat :| EndAt(q, s, hi);
      forall hi': nat | WindowAt(q, s, hi')
        ensures hi' == hi
      {
        WindowUnique(q, s, hi, hi');
      }
    }
  }

  // --- What is still there ---

  // No packet comes after a keyframe that follows it.
  ghost predicate KeyframesRise(s: seq<Packet>) {
    forall i, j :: 0 <= i < j < |s| && s[j].keyframe ==> TimeOf(s[i]) <= TimeOf(s[j])
  }

  // Then a queue with a start still has a packet at or after each position up to
  // which it has been read, whatever was pruned.
  lemma ReadIsInQueue(q: Queue, cfg: StreamConfig, s: seq<Packet>, pts: real)
    requires QueueOk(q, cfg) && q.seekStart != NOPTS && ReadTo(q, s, pts) && KeyframesRise(s)
    ensures exists i :: 0 <= i < |q.pkts| && TimeOf(q.pkts[i]) >= pts
  {
    hide CumOk, KeyframesOk, QIndexOk, RunMin;
    var hi: nat :| WindowAt(q, s, hi) && TimeBefore(s, hi, pts);
    var lo := hi - |q.pkts|;
    var k :| 0 <= k < hi && k < |s| && TimeOf(s[k]) >= pts;
    if k >= lo {
      assert q.pkts[k - lo] == s[k];
    } else {
      var c: nat :| Candidate(q.pkts, c) && RunMin(q.pkts, c) <= q.seekStart - cfg.preroll;
      assert q.pkts[c] == s[lo + c];
    }
  }

  // In general, a round of pruning leaves a packet at or after the end if and only if
  // there is one behind what it removes.
  ghost predicate EndIn(s: seq<Packet>, end: real, from: nat) {
    exists i :: from <= i < |s| && TimeOf(s[i]) >= end
  }

  lemma PruneLeavesEndIff(q: Queue, reader: Option<nat>, seekable: bool, preroll: real)
    requires |q.cum| == |q.pkts| && Prunable(q, reader) && (reader.Some? ==> q.base <= reader.value)
    ensures var p := PruneQueue(q, reader, seekable, preroll).q;
            && p.seekEnd == q.seekEnd
            && (EndIn(p.pkts, p.seekEnd, 0) <==> EndIn(q.pkts, q.seekEnd, PruneStop(q, reader, seekable)))
  {
    hide PruneQueue, PruneStop, StartFrom, PrunesKeyframe;
    PruneQueueIs(q, reader, seekable, preroll);
    var p, stop := PruneQueue(q, reader, seekable, preroll).q, PruneStop(q, reader, seekable);
    if i :| 0 <= i < |p.pkts| && TimeOf(p.pkts[i]) >= p.seekEnd {
      assert q.pkts[stop + i] == p.pkts[i];
    }
    if i :| stop <= i < |q.pkts| && TimeOf(q.pkts[i]) >= q.seekEnd {
      assert q.pkts[i] == p.pkts[i - stop];
    }
  }

  // A queue with a run that ends after the runs which follow it.
  function LongRun(): seq<Packet> {
    var p := Packet(0.0, 0.0, 0, true, 1, 1, false, NOPTS, NOPTS);
    [p, p.(pts := 10.0, keyframe := false), p.(pts := 5.0), p.(pts := 6.0, keyframe := false), p.(pts := 7.0)]
  }

  // When that run is pruned, the queue still ends where it did, but all packets are
  // before that.
  lemma PrunedEndIsGone(q: Queue)
    requires q.pkts == LongRun() && |q.cum| == |q.pkts| && q.seekEnd == 10.0
    ensures var p := PruneQueue(q, None, true, 0.0).q;
            p.seekStart == 5.0 && p.seekEnd == 10.0 && p.pkts != [] && !EndIn(p.pkts, 7.1, 0)
  {
    hide PruneQueue;
    PruneQueueIs(q, None, true, 0.0);
    var s := LongRun();
    assert NextKeyframe(s, 2) == 2 && RunEnd(s, 0) == 2 && RunEnd(s, 2) == 4;
    assert MinTime(s, 2, 2) == NOPTS && MinTime(s, 2, 3) == 5.0 && RunMin(s, 2) == 5.0;
  }
}
