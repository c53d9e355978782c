// What every operation on the packet cache keeps.

module CacheInvariants {
  import opened Timestamps
  import opened Wrappers
  import opened Packets
  import opened RingIndex
  import opened SeekTarget
  import opened Queues
  import opened Ranges
  import opened Cache

  // --- The invariant ---

  ghost predicate QueueOk(q: Queue, cfg: StreamConfig) {
    Consistent(q) && StartOk(q, cfg.preroll)
  }

  ghost predicate QueuesOk(qs: seq<Queue>, cfg: seq<StreamConfig>) {
    |qs| == |cfg| && forall n :: 0 <= n < |qs| ==> QueueOk(qs[n], cfg[n])
  }

  // A set start of the range comes from some queue that has one.
  ghost predicate Backed(r: Range, cfg: seq<StreamConfig>)
    requires |r.queues| == |cfg|
  {
    r.seekStart != NOPTS ==>
      exists n :: 0 <= n < |cfg| && Counts(cfg[n]) && r.queues[n].seekStart != NOPTS
  }

  ghost predicate RangeOk(r: Range, cfg: seq<StreamConfig>) {
    QueuesOk(r.queues, cfg) && Backed(r, cfg)
  }

  ghost predicate RangesOk(rs: seq<Range>, cfg: seq<StreamConfig>) {
    forall r :: 0 <= r < |rs| ==> RangeOk(rs[r], cfg)
  }

  // Ranges other than the current one are worth keeping.
  ghost predicate OthersSeekable(rs: seq<Range>) {
    forall r :: 0 <= r < |rs| - 1 ==> rs[r].seekStart != NOPTS
  }

  ghost predicate ReaderOk(q: Queue, s: Stream) {
    s.readerHead.Some? ==> q.Has(s.readerHead.value)
  }

  ghost predicate ReadersOk(qs: seq<Queue>, ss: seq<Stream>) {
    |qs| == |ss| && forall n :: 0 <= n < |ss| ==> ReaderOk(qs[n], ss[n])
  }

  ghost predicate CacheOk(c: State) {
    && |c.ranges| > 0
    && RangesOk(c.ranges, c.cfg)
    && OthersSeekable(c.ranges)
    && ReadersOk(c.ranges[|c.ranges| - 1].queues, c.streams)
  }

  lemma OkHasShape(c: State)
    requires CacheOk(c)
    ensures c.Shape()
    ensures forall r, n :: 0 <= r < |c.ranges| && 0 <= n < |c.cfg| ==> QueueOk(c.ranges[r].queues[n], c.cfg[n])
  {
    forall r, n | 0 <= r < |c.ranges| && 0 <= n < |c.cfg|
      ensures QueueOk(c.ranges[r].queues[n], c.cfg[n])
      ensures |c.ranges[r].queues| == |c.cfg|
    {
      assert RangeOk(c.ranges[r], c.cfg);
    }
    assert forall r :: 0 <= r < |c.ranges| ==> RangeOk(c.ranges[r], c.cfg);
  }

  // --- Seek ranges ---

  lemma {:induction false} MaxStartBacked(qs: seq<Queue>, cfg: seq<StreamConfig>, n: nat) returns (i: nat)
    requires n <= |qs| == |cfg| && MaxStart(qs, cfg, n) != NOPTS
    ensures i < n && Counts(cfg[i]) && qs[i].seekStart != NOPTS
  {
    if Counts(cfg[n - 1]) && qs[n - 1].seekStart != NOPTS {
      i := n - 1;
    } else {
      i := MaxStartBacked(qs, cfg, n - 1);
    }
  }

  lemma {:induction false} MinBofStartBacked(qs: seq<Queue>, cfg: seq<StreamConfig>, n: nat) returns (i: nat)
    requires n <= |qs| == |cfg| && MinBofStart(qs, cfg, n) != NOPTS
    ensures i < n && Counts(cfg[i]) && qs[i].seekStart != NOPTS
  {
    if Counts(cfg[n - 1]) && qs[n - 1].seekStart != NOPTS {
      i := n - 1;
    } else {
      i := MinBofStartBacked(qs, cfg, n - 1);
    }
  }

  lemma UpdateRangeOk(r: Range, cfg: seq<StreamConfig>)
    requires QueuesOk(r.queues, cfg)
    ensures RangeOk(UpdateSeekRanges(r, cfg), cfg)
  {
    var qs, n := r.queues, |r.queues|;
    var u := UpdateSeekRanges(r, cfg);
    if u.seekStart != NOPTS {
      SparseStartGrows(qs, cfg, NOPTS, n);
      if AllBof(qs, cfg, n) {
        var i := MinBofStartBacked(qs, cfg, n);
      } else {
        var i := MaxStartBacked(qs, cfg, n);
      }
    }
  }

  lemma ClearRangeOk(r: Range, cfg: seq<StreamConfig>)
    requires |r.queues| == |cfg|
    ensures RangeOk(ClearRange(r, cfg), cfg)
  {
    ClearedHasNoSpan(r, cfg);
    forall n | 0 <= n < |cfg|
      ensures QueueOk(ClearAll(r.queues)[n], cfg[n])
    {
      ClearConsistent(r.queues[n]);
    }
  }

  // A queue was replaced and its start did not change, so the span of the range
  // needs no update.
  lemma SameStartOk(r: Range, n: nat, q: Queue, cfg: seq<StreamConfig>)
    requires RangeOk(r, cfg) && n < |cfg| && QueueOk(q, cfg[n])
    requires q.seekStart == r.queues[n].seekStart || !Counts(cfg[n])
    ensures RangeOk(SetQueue(r, n, q), cfg)
  {
    hide Consistent, StartOk;

    var r' := SetQueue(r, n, q);
    if r.seekStart != NOPTS {
      var i :| 0 <= i < |cfg| && Counts(cfg[i]) && r.queues[i].seekStart != NOPTS;
      assert Counts(cfg[i]) && r'.queues[i].seekStart != NOPTS;
    }
  }

  lemma SetQueueOk(r: Range, n: nat, q: Queue, cfg: seq<StreamConfig>)
    requires QueuesOk(r.queues, cfg) && n < |cfg| && QueueOk(q, cfg[n])
    ensures RangeOk(UpdateSeekRanges(SetQueue(r, n, q), cfg), cfg)
  {
    UpdateRangeOk(SetQueue(r, n, q), cfg);
  }

  // --- Eviction ---

  lemma FreeEmptyOk(rs: seq<Range>, cfg: seq<StreamConfig>, seekable: bool)
    requires |rs| > 0 && RangesOk(rs, cfg)
    ensures var e := FreeEmpty(rs, seekable);
            && |e| > 0 && e[|e| - 1] == rs[|rs| - 1]
            && RangesOk(e, cfg) && OthersSeekable(e)
  {
    EvictionOutcome(rs, seekable);
    var e := FreeEmpty(rs, seekable);
    SubsequenceMembers(e[..|e| - 1], rs[..|rs| - 1]);
    forall r | 0 <= r < |e|
      ensures exists i :: 0 <= i < |rs| && rs[i] == e[r]
      ensures r < |e| - 1 ==> e[r].seekStart != NOPTS
    {
      if r < |e| - 1 {
        assert e[r] in e[..|e| - 1] && e[r] in rs[..|rs| - 1];
      } else {
        assert rs[|rs| - 1] == e[r];
      }
    }
  }

  lemma FreeEmptyRangesOk(c: State)
    requires |c.ranges| > 0 && RangesOk(c.ranges, c.cfg)
    requires ReadersOk(c.ranges[|c.ranges| - 1].queues, c.streams)
    ensures CacheOk(FreeEmptyRanges(c))
    ensures var e := FreeEmptyRanges(c).ranges; e[|e| - 1] == c.ranges[|c.ranges| - 1]
  {
    FreeEmptyOk(c.ranges, c.cfg, c.opts.seekableCache);
  }

  // --- Adjusting the seek range of a queue ---

  lemma SameListOk(q: Queue, r: Queue, preroll: real)
    requires r.pkts == q.pkts && r.cum == q.cum && r.tailCum == q.tailCum
    ensures CumOk(q) ==> CumOk(r)
    ensures r.seekStart == q.seekStart && StartOk(q, preroll) ==> StartOk(r, preroll)
  {
    forall i | 0 <= i < |q.pkts| && |q.cum| == |q.pkts|
      ensures NextCum(r, i) == NextCum(q, i)
    {
    }
  }

  lemma AdjustIndexOk(q: Queue, dp: Option<nat>, preroll: real)
    requires QIndexOk(q) && KeyframesOk(q)
    ensures QIndexOk(AdjustQueue(q, dp, preroll))
  {
    if Indexes(q, dp) {
      assert EntryOk(q.pkts, q.base, LatestEntry(q));
      IndexConsistent(q, LatestEntry(q));
    }
  }

  lemma AdjustKeyframesOk(q: Queue, dp: Option<nat>, preroll: real)
    requires KeyframesOk(q)
    requires dp.Some? ==> q.Has(dp.value) && AllBelow(q.index, dp.value)
                          && (q.kfLatest.Some? ==> q.kfLatest.value < dp.value)
    ensures KeyframesOk(AdjustQueue(q, dp, preroll))
  {
  }

  lemma AdjustStartOk(q: Queue, dp: Option<nat>, preroll: real)
    requires StartOk(q, preroll) && KeyframesOk(q)
    ensures StartOk(AdjustQueue(q, dp, preroll), preroll)
  {
    var r := AdjustQueue(q, dp, preroll);
    if Starts(q, dp) {
      assert Candidate(r.pkts, q.kfLatest.value - q.base);
    } else {
      SameListOk(q, r, preroll);
    }
  }

  lemma AdjustQueueOk(q: Queue, dp: Option<nat>, cfg: StreamConfig)
    requires QueueOk(q, cfg)
    requires dp.Some? ==> q.Has(dp.value) && AllBelow(q.index, dp.value)
                          && (q.kfLatest.Some? ==> q.kfLatest.value < dp.value)
    ensures QueueOk(AdjustQueue(q, dp, cfg.preroll), cfg)
  {
    SameListOk(q, AdjustQueue(q, dp, cfg.preroll), cfg.preroll);
    AdjustIndexOk(q, dp, cfg.preroll);
    AdjustKeyframesOk(q, dp, cfg.preroll);
    AdjustStartOk(q, dp, cfg.preroll);
  }

  // --- Joining ---

  lemma {:induction false} TrimToJoinOk(q: Queue, end: Packet, s: Stream)
    requires Consistent(q)
    ensures var t := TrimToJoin(q, end, s); !t.CannotJoin? ==> Consistent(t.q)
    decreases |q.pkts|
  {
    if |q.pkts| > 0 {
      RemoveHeadConsistent(q);
      TrimToJoinOk(RemoveHead(q), end, s);
    }
  }

  lemma TrimStreamOk(q1: Queue, q2: Queue, cfg: StreamConfig, s: Stream)
    requires Consistent(q2)
    ensures TrimStream(q1, q2, cfg, s).Joinable? ==> Consistent(TrimStream(q1, q2, cfg, s).q)
  {
    hide KeyframesOk, QIndexOk;
    if |q1.pkts| > 0 {
      TrimToJoinOk(q2, q1.pkts[|q1.pkts| - 1], s);
    }
  }

  lemma {:induction false} TrimAllOk(qs1: seq<Queue>, qs2: seq<Queue>, cfg: seq<StreamConfig>, ss: seq<Stream>, n: nat)
    requires n <= |qs1| == |qs2| == |cfg| == |ss|
    requires forall i :: 0 <= i < |qs2| ==> Consistent(qs2[i])
    ensures forall i :: 0 <= i < |qs2| ==> |qs2[i].cum| == |qs2[i].pkts|
    ensures var t := TrimAll(qs1, qs2, cfg, ss, n);
            t.Some? ==> |t.value| == n && forall i :: 0 <= i < n ==> Consistent(t.value[i])
  {
    hide KeyframesOk, QIndexOk;
    if n > 0 {
      TrimAllOk(qs1, qs2, cfg, ss, n - 1);
      TrimStreamOk(qs1[n - 1], qs2[n - 1], cfg[n - 1], ss[n - 1]);
    }
  }

  lemma JoinQueueOk(q1: Queue, q2: Queue, cfg: StreamConfig, s: Stream)
    requires QueueOk(q1, cfg) && Consistent(q2) && ReaderOk(q1, s)
    ensures QueueOk(Join(q1, q2), cfg)
    ensures ReaderOk(Join(q1, q2), JoinStream(q1, q2, cfg, s))
  {
    JoinConsistent(q1, q2);
    JoinStart(q1, q2, cfg.preroll);
  }

  lemma JoinAllOk(qs1: seq<Queue>, qs2: seq<Queue>, cfg: seq<StreamConfig>, ss: seq<Stream>)
    requires QueuesOk(qs1, cfg) && |qs2| == |cfg| && ReadersOk(qs1, ss)
    requires forall i :: 0 <= i < |qs2| ==> Consistent(qs2[i])
    ensures QueuesOk(JoinAll(qs1, qs2), cfg)
    ensures ReadersOk(JoinAll(qs1, qs2), JoinStreams(qs1, qs2, cfg, ss))
  {
    forall n | 0 <= n < |cfg|
      ensures QueueOk(JoinAll(qs1, qs2)[n], cfg[n])
      ensures ReaderOk(JoinAll(qs1, qs2)[n], JoinStreams(qs1, qs2, cfg, ss)[n])
    {
      JoinQueueOk(qs1[n], qs2[n], cfg[n], ss[n]);
    }
  }

  lemma SetRangeOk(rs: seq<Range>, i: nat, r: Range, cfg: seq<StreamConfig>)
    requires i < |rs| && RangesOk(rs, cfg) && RangeOk(r, cfg)
    ensures RangesOk(rs[i := r], cfg)
  {
  }

  lemma NextIsNotCurrent(rs: seq<Range>, n: nat)
    requires n < |rs|
    ensures ChooseNext(rs, n).Some? ==> ChooseNext(rs, n).value < n
  {
  }

  // Of the ranges that begin within the current one, the one that overlaps it the
  // least is joined, which is the one that begins last; of several, the first.
  lemma {:induction false} NextOverlapsLeast(rs: seq<Range>, n: nat)
    requires n < |rs|
    ensures var next, cur := ChooseNext(rs, n), rs[|rs| - 1];
            && (next.Some? ==> next.value < n && cur.seekStart <= rs[next.value].seekStart < cur.seekEnd)
            && forall i :: 0 <= i < n && cur.seekStart <= rs[i].seekStart < cur.seekEnd ==>
                 && next.Some? && rs[next.value].seekStart >= rs[i].seekStart
                 && (i < next.value ==> rs[next.value].seekStart > rs[i].seekStart)
  {
    if n > 0 {
      NextOverlapsLeast(rs, n - 1);
    }
  }

  lemma JoinWithOk(c: State, i: nat, qs2: seq<Queue>)
    requires CacheOk(c) && c.Shape() && i < c.Last() && |qs2| == |c.cfg|
    requires forall n :: 0 <= n < |qs2| ==> Consistent(qs2[n])
    ensures CacheOk(JoinWith(c, i, qs2))
    ensures var j := JoinWith(c, i, qs2);
            && |j.ranges| == |c.ranges| && j.ranges[i] == c.ranges[i]
            && j.cfg == c.cfg && j.opts == c.opts
  {
    hide QueueOk, Consistent, Backed, JoinStream, Join, ReaderOk;
    var cur := c.ranges[c.Last()];
    assert RangeOk(cur, c.cfg);
    JoinAllOk(cur.queues, qs2, c.cfg, c.streams);
    JoinedRangeOk(cur, qs2, c.cfg);
    var joined := UpdateSeekRanges(cur.(queues := JoinAll(cur.queues, qs2)), c.cfg);
    SetRangeOk(c.ranges, c.Last(), joined, c.cfg);
  }

  lemma JoinedRangeOk(cur: Range, qs2: seq<Queue>, cfg: seq<StreamConfig>)
    requires |cur.queues| == |qs2| && QueuesOk(JoinAll(cur.queues, qs2), cfg)
    ensures var joined := UpdateSeekRanges(cur.(queues := JoinAll(cur.queues, qs2)), cfg);
            RangeOk(joined, cfg) && joined.queues == JoinAll(cur.queues, qs2)
  {
    hide QueueOk;
    UpdateRangeOk(cur.(queues := JoinAll(cur.queues, qs2)), cfg);
  }

  // Discarding a range that is not the current one.
  lemma DiscardOk(c: State, i: nat)
    requires CacheOk(c) && i < |c.ranges| - 1 && |c.ranges[i].queues| == |c.cfg|
    ensures CacheOk(FreeEmptyRanges(WithRange(c, i, ClearRange(c.ranges[i], c.cfg))))
  {
    hide Consistent, StartOk;

    ClearRangeOk(c.ranges[i], c.cfg);
    SetRangeOk(c.ranges, i, ClearRange(c.ranges[i], c.cfg), c.cfg);
    FreeEmptyRangesOk(WithRange(c, i, ClearRange(c.ranges[i], c.cfg)));
  }

  lemma AttemptJoinOk(c: State)
    requires CacheOk(c) && c.Shape()
    ensures CacheOk(AttemptJoin(c))
  {
    hide Consistent, StartOk, Backed, JoinWith;

    NextIsNotCurrent(c.ranges, c.Last());
    var next := ChooseNext(c.ranges, c.Last());
    if next.Some? {
      var i, cur := next.value, c.ranges[c.Last()];
      assert RangeOk(c.ranges[i], c.cfg);
      TrimAllOk(cur.queues, c.ranges[i].queues, c.cfg, c.streams, |c.cfg|);
      var qs2 := TrimAll(cur.queues, c.ranges[i].queues, c.cfg, c.streams, |c.cfg|);
      if qs2.Some? {
        JoinWithOk(c, i, qs2.value);
        DiscardOk(JoinWith(c, i, qs2.value), i);
      } else {
        DiscardOk(c, i);
      }
    }
  }

  // --- Adding packets, EOF ---

  lemma CurrentOk(c: State, r: Range)
    requires CacheOk(c) && RangeOk(r, c.cfg) && ReadersOk(r.queues, c.streams)
    ensures CacheOk(WithRange(c, |c.ranges| - 1, r))
  {
    SetRangeOk(c.ranges, |c.ranges| - 1, r, c.cfg);
  }

  lemma AdjustSeekRangeOk(c: State, n: nat, dp: Option<nat>)
    requires CacheOk(c) && c.Shape() && n < |c.cfg|
    requires var q := c.ranges[c.Last()].queues[n];
             dp.Some? ==> q.Has(dp.value) && AllBelow(q.index, dp.value)
                          && (q.kfLatest.Some? ==> q.kfLatest.value < dp.value)
    ensures CacheOk(AdjustSeekRange(c, n, dp))
  {
    hide Consistent, StartOk;

    if c.opts.seekableCache {
      var r := c.ranges[c.Last()];
      var q := r.queues[n];
      assert RangeOk(r, c.cfg);
      var q' := AdjustQueue(q, dp, c.cfg[n].preroll);
      AdjustQueueOk(q, dp, c.cfg[n]);
      AdjustedRangeOk(r, n, q', c.cfg, c.streams);
      if NeedsUpdate(q, dp, r.seekEnd) && c.cfg[n].eager {
        var r' := UpdateSeekRanges(SetQueue(r, n, q'), c.cfg);
        CurrentOk(c, r');
        OkHasShape(WithRange(c, c.Last(), r'));
        AttemptJoinOk(WithRange(c, c.Last(), r'));
      } else {
        SameStartOk(r, n, q', c.cfg);
        CurrentOk(c, SetQueue(r, n, q'));
      }
    }
  }

  lemma AdjustedRangeOk(r: Range, n: nat, q: Queue, cfg: seq<StreamConfig>, ss: seq<Stream>)
    requires RangeOk(r, cfg) && n < |cfg| && QueueOk(q, cfg[n]) && ReadersOk(r.queues, ss)
    requires q.pkts == r.queues[n].pkts && q.base == r.queues[n].base
    ensures ReadersOk(SetQueue(r, n, q).queues, ss)
    ensures RangeOk(UpdateSeekRanges(SetQueue(r, n, q), cfg), cfg)
  {
    SetQueueOk(r, n, q, cfg);
  }

  // Filling in pts does not change the time of a packet; packets other than video have
  // one if they have any time.
  lemma StoredIs(p: Packet, cfg: StreamConfig)
    ensures var s := Stored(p, cfg);
            && TimeOf(s) == TimeOf(p) && s == p.(pts := s.pts)
            && (cfg.video ==> s == p)
            && (!cfg.video && s.pts == NOPTS ==> p.pts == NOPTS && p.dts == NOPTS)
  {
  }

  lemma AppendPacketOk(c: State, n: nat, p: Packet)
    requires CacheOk(c) && c.Shape() && n < |c.cfg|
    ensures CacheOk(AppendPacket(c, n, p)) && AppendPacket(c, n, p).Shape()
  {
    hide Consistent, StartOk, Backed;
    var r := c.ranges[c.Last()];
    var q, p' := r.queues[n], Stored(p, c.cfg[n]);
    assert RangeOk(r, c.cfg) && QueueOk(q, c.cfg[n]);
    AppendConsistent(q, p');
    AppendStart(q, p', c.cfg[n].preroll);
    SameStartOk(r, n, Append(q, p'), c.cfg);
    SetRangeOk(c.ranges, c.Last(), SetQueue(r, n, Append(q, p')), c.cfg);
    var c' := AppendPacket(c, n, p);
    assert forall i :: 0 <= i < |c.streams| && i != n ==> ReaderOk(r.queues[i], c.streams[i]);
    assert ReaderOk(q, c.streams[n]);
    OkHasShape(c');
  }

  lemma NewPacketIsLast(q: Queue, cfg: StreamConfig)
    requires QueueOk(q, cfg)
    ensures AllBelow(q.index, q.End())
    ensures q.kfLatest.Some? ==> q.kfLatest.value < q.End()
  {
    IndexBelowEnd(q.pkts, q.base, q.index, q.End());
  }

  lemma AddPacketOk(c: State, n: nat, p: Packet)
    requires CacheOk(c) && c.Shape() && n < |c.cfg|
    ensures CacheOk(AddPacket(c, n, p))
  {
    hide Consistent, StartOk;

    if !(p.len == 0 || !c.cfg[n].selected || c.seeking) && !c.streams[n].refreshing {
      var q := c.ranges[c.Last()].queues[n];
      assert RangeOk(c.ranges[c.Last()], c.cfg) && QueueOk(q, c.cfg[n]);
      NewPacketIsLast(q, c.cfg[n]);
      AppendPacketOk(c, n, p);
      AdjustSeekRangeOk(AppendPacket(c, n, p), n, Some(q.End()));
    }
  }

  lemma MarkEofOk(c: State, n: nat)
    requires CacheOk(c) && c.Shape() && n < |c.cfg|
    ensures CacheOk(MarkEof(c, n))
  {
    if !c.streams[n].eof {
      AdjustSeekRangeOk(WithStream(c, n, c.streams[n].(eof := true)), n, None);
    }
  }

  // --- Seeking ---

  lemma {:induction false} TrimNonKeyframesOk(q: Queue, cfg: StreamConfig)
    requires QueueOk(q, cfg)
    ensures var r := TrimNonKeyframes(q);
            QueueOk(r, cfg) && r.seekStart == q.seekStart
    decreases |q.pkts|
  {
    if |q.pkts| > 0 && !q.pkts[0].keyframe {
      RemoveHeadConsistent(q);
      RemoveNonKeyframeStart(q, cfg.preroll);
      TrimNonKeyframesOk(RemoveHead(q), cfg);
    }
  }

  lemma TrimRangeOk(r: Range, cfg: seq<StreamConfig>)
    requires RangeOk(r, cfg) && QueuesShape(r, cfg)
    ensures RangeOk(TrimRange(r, cfg), cfg)
  {
    hide Consistent, StartOk;

    var t := TrimRange(r, cfg);
    forall n | 0 <= n < |cfg|
      ensures QueueOk(t.queues[n], cfg[n]) && t.queues[n].seekStart == r.queues[n].seekStart
    {
      TrimNonKeyframesOk(r.queues[n], cfg[n]);
    }
    if r.seekStart != NOPTS {
      var i :| 0 <= i < |cfg| && Counts(cfg[i]) && r.queues[i].seekStart != NOPTS;
      assert Counts(cfg[i]) && t.queues[i].seekStart != NOPTS;
    }
  }

  lemma SameReadersOk(qs: seq<Queue>, ss: seq<Stream>, tt: seq<Stream>)
    requires ReadersOk(qs, ss) && |tt| == |ss|
    requires forall n :: 0 <= n < |ss| ==> tt[n].readerHead == ss[n].readerHead
    ensures ReadersOk(qs, tt)
  {
    forall n | 0 <= n < |tt|
      ensures ReaderOk(qs[n], tt[n])
    {
      assert ReaderOk(qs[n], ss[n]);
    }
  }

  // The ranges after a switch, before empty ones are freed.
  lemma SwitchedRangesOk(rs: seq<Range>, i: nat, prev: Range, cfg: seq<StreamConfig>)
    requires i < |rs| - 1 && RangesOk(rs, cfg) && RangeOk(prev, cfg)
    ensures var t := rs[..i] + rs[i + 1..|rs| - 1] + [prev] + [rs[i]];
            RangesOk(t, cfg) && t[|t| - 1] == rs[i]
  {
    hide RangeOk;
    var t := rs[..i] + rs[i + 1..|rs| - 1] + [prev] + [rs[i]];
    forall r | 0 <= r < |t|
      ensures t[r] == prev || exists k :: 0 <= k < |rs| && t[r] == rs[k]
    {
      if r < i {
        assert t[r] == rs[r];
      } else if r < |rs| - 2 {
        assert t[r] == rs[r + 1];
      } else if r > |rs| - 2 {
        assert t[r] == rs[i];
      }
    }
  }

  // Readers have to be within the range that becomes the current one.
  lemma SwitchRangeOk(c: State, i: nat)
    requires c.Shape() && i < c.Last() && RangesOk(c.ranges, c.cfg) && ReadersOk(c.ranges[i].queues, c.streams)
    ensures CacheOk(SwitchRange(c, i))
  {
    hide RangeOk, ReadersOk, ClearRange, Unjoinable, SwitchRange;
    var last := c.ranges[c.Last()];
    assert RangeOk(last, c.cfg);
    var prev := TrimRange(last, c.cfg);
    TrimRangeOk(last, c.cfg);
    ClearRangeOk(prev, c.cfg);
    var prev' := if Unjoinable(c) then ClearRange(prev, c.cfg) else prev;
    SwitchedRangesOk(c.ranges, i, prev', c.cfg);
    var rs := c.ranges[..i] + c.ranges[i + 1..c.Last()] + [prev'] + [c.ranges[i]];
    SwitchedOutcome(c, i, rs, prev');
  }

  lemma SwitchedOutcome(c: State, i: nat, rs: seq<Range>, prev: Range)
    requires c.Shape() && i < c.Last() && ReadersOk(c.ranges[i].queues, c.streams)
    requires prev == (if Unjoinable(c) then ClearRange(TrimRange(c.ranges[c.Last()], c.cfg), c.cfg)
                      else TrimRange(c.ranges[c.Last()], c.cfg))
    requires rs == c.ranges[..i] + c.ranges[i + 1..c.Last()] + [prev] + [c.ranges[i]]
    requires RangesOk(rs, c.cfg)
    ensures CacheOk(SwitchRange(c, i))
  {
    hide RangesOk, ReadersOk, TrimRange, ClearRange, Unjoinable;
    FreeEmptyOk(rs, c.cfg, c.opts.seekableCache);
    SameReadersOk(c.ranges[i].queues, c.streams, SwitchRange(c, i).streams);
  }

  lemma QueueTargetHas(q: Queue, cfg: StreamConfig, pts: real, forward: bool)
    requires IndexOk(q.pkts, q.base, q.index)
    ensures var t := QueueTarget(q, cfg, pts, forward); t.Some? ==> Candidate(q.pkts, t.value)
  {
    hide Scan, IndexOk, NoCandidate, RunMin;
    var s := ScanStart(q.pkts, q.base, q.index, pts - cfg.preroll);
    if forward {
      ForwardScanFinds(q.pkts, s, pts - cfg.preroll);
    } else {
      BackwardScanFinds(q.pkts, s, pts - cfg.preroll);
    }
  }

  lemma SeekStreamsOk(c: State, r: Range, to: SeekPoint)
    requires |c.streams| == |c.cfg| == |r.queues| && RangeOk(r, c.cfg)
    ensures ReadersOk(r.queues, SeekStreams(c, r, to))
  {
    forall n | 0 <= n < |c.cfg|
      ensures ReaderOk(r.queues[n], SeekStreams(c, r, to)[n])
    {
      assert QueueOk(r.queues[n], c.cfg[n]);
      QueueTargetHas(r.queues[n], c.cfg[n], to.pts, to.forward);
    }
  }

  lemma CacheSeekOk(c: State, i: nat, to: SeekPoint, hr: bool)
    requires CacheOk(c) && c.Shape() && i < |c.ranges|
    ensures CacheOk(CacheSeek(c, i, to, hr))
  {
    hide RangeOk, ReadersOk, SeekStreams, SwitchRange, AdjustTarget;
    var r := c.ranges[i];
    assert RangeOk(r, c.cfg);
    var to' := if hr then to else AdjustTarget(r, c.cfg, to, 0);
    SeekStreamsOk(c, r, to');
    if i != c.Last() {
      var c1 := c.(streams := SeekStreams(c, r, to'));
      SwitchRangeOk(c1, i);
      var c2 := SwitchRange(c1, i);
      SwitchKeepsConfig(c1, i);
      SameReadersOk(c2.ranges[|c2.ranges| - 1].queues, c2.streams, CacheSeek(c, i, to, hr).streams);
    }
  }

  lemma SwitchKeepsConfig(c: State, i: nat)
    requires c.Shape() && i < c.Last()
    ensures SwitchRange(c, i).cfg == c.cfg && |SwitchRange(c, i).streams| == |c.streams|
  {
  }

  lemma NewRangeOk(cfg: seq<StreamConfig>)
    ensures RangeOk(NewRange(cfg), cfg)
  {
  }

  lemma FreshRangeOk(c: State)
    requires CacheOk(c) && c.Shape() && (forall n :: 0 <= n < |c.streams| ==> c.streams[n].readerHead.None?)
    ensures CacheOk(FreshRange(c))
  {
    hide RangeOk;

    var last := c.ranges[c.Last()];
    assert RangeOk(last, c.cfg);
    if !c.opts.seekableCache {
      ClearRangeOk(last, c.cfg);
      CurrentOk(c, ClearRange(last, c.cfg));
    } else {
      NewRangeOk(c.cfg);
      var c1 := c.(ranges := c.ranges[..c.Last()] + [NewRange(c.cfg), last]);
      SwitchRangeOk(c1, c.Last());
    }
  }

  lemma QueueSeekOk(c: State, to: SeekPoint, hr: bool, cached: bool, seekable: bool)
    requires CacheOk(c) && c.Shape()
    ensures CacheOk(QueueSeek(c, to, hr, cached, seekable))
  {
    var c1 := ClearReaders(c);
    var k := if c.opts.seekableCache then FindCacheRange(c, to.pts, 0) else |c.ranges|;
    if to.pts == NOPTS {
    } else if k < |c.ranges| {
      CacheSeekOk(c1, k, to, hr);
    } else if !(cached || !seekable) {
      FreshRangeOk(c1);
    }
  }

  // --- The memory that is accounted for ---

  function QueuesMemory(qs: seq<Queue>): nat {
    if |qs| == 0 then 0
    else QueuesMemory(qs[..|qs| - 1]) + SizeSum(qs[|qs| - 1].pkts) + qs[|qs| - 1].indexSize * ENTRY_BYTES
  }

  // The sizes of all packets in the cache, and of all indexes.
  function Memory(rs: seq<Range>): nat {
    if |rs| == 0 then 0 else Memory(rs[..|rs| - 1]) + QueuesMemory(rs[|rs| - 1].queues)
  }

  lemma {:induction false} QueuesBytesAreMemory(qs: seq<Queue>)
    requires forall n :: 0 <= n < |qs| ==> CumOk(qs[n])
    ensures QueuesBytes(qs) == QueuesMemory(qs)
    decreases |qs|
  {
    hide CumOk, SizeSum;
    if |qs| > 0 {
      QueuesBytesAreMemory(qs[..|qs| - 1]);
      BytesAreSizes(qs[|qs| - 1]);
    }
  }

  lemma {:induction false} RangesBytesAreMemory(rs: seq<Range>, cfg: seq<StreamConfig>)
    requires RangesOk(rs, cfg)
    ensures TotalBytes(rs) == Memory(rs)
    decreases |rs|
  {
    hide CumOk, KeyframesOk, QIndexOk, StartOk, Backed;
    if |rs| > 0 {
      var r := rs[|rs| - 1];
      RangesBytesAreMemory(rs[..|rs| - 1], cfg);
      assert RangeOk(r, cfg);
      assert forall n :: 0 <= n < |r.queues| ==> QueueOk(r.queues[n], cfg[n]);
      QueuesBytesAreMemory(r.queues);
    }
  }

  // The cumulative positions of a cache in order account for exactly the memory
  // that its packets and indexes take.
  lemma TotalIsMemory(c: State)
    requires CacheOk(c)
    ensures TotalBytes(c.ranges) == Memory(c.ranges)
  {
    hide RangesOk;
    RangesBytesAreMemory(c.ranges, c.cfg);
  }

  // --- Which range is sought in ---

  // The range that is found is the first one that begins at or before the position,
  // or at the beginning of the file, and ends at or after it, or at the end.
  lemma {:induction false} FoundIsFirst(c: State, pts: real, n: nat)
    requires n <= |c.ranges|
    ensures var k := FindCacheRange(c, pts, n);
            && (k < |c.ranges| ==>
                  var r := c.ranges[k];
                  r.seekStart != NOPTS && (r.seekStart <= pts || r.isBof) && (pts <= r.seekEnd || r.isEof))
            && forall i :: n <= i < k ==>
                 var r := c.ranges[i];
                 r.seekStart == NOPTS || (pts < r.seekStart && !r.isBof) || (r.seekEnd < pts && !r.isEof)
    decreases |c.ranges| - n
  {
    if n < |c.ranges| && !InRange(c.ranges[n], pts) {
      FoundIsFirst(c, pts, n + 1);
    }
  }
}
