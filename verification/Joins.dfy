// When ranges can be joined, and what becomes of them.

module Joins {
  import opened Timestamps
  import opened Wrappers
  import opened Packets
  import opened RingIndex
  import opened Queues
  import opened Ranges
  import opened Cache
  import opened CacheRuns

  // --- Queues ---

  // What packets are told apart by, as far as it has only increased so far.
  predicate IsAtOrPast(st: Stream, p: Packet, end: Packet) {
    (st.globalCorrectDts && p.dts >= end.dts) || (st.globalCorrectPos && p.pos >= end.pos)
  }

  predicate IsAt(st: Stream, p: Packet, end: Packet) {
    (st.globalCorrectDts && p.dts == end.dts) || (st.globalCorrectPos && p.pos == end.pos)
  }

  // Where the next queue gets to the last packet of the current one, or past it.
  function Meeting(s: seq<Packet>, end: Packet, st: Stream): (i: nat)
    ensures i <= |s|
    ensures i < |s| ==> IsAtOrPast(st, s[i], end)
    ensures forall k :: 0 <= k < i ==> !IsAtOrPast(st, s[k], end)
  {
    if |s| == 0 || IsAtOrPast(st, s[0], end) then 0 else Meeting(s[1..], end, st) + 1
  }

  ghost predicate SameTimes(p: Packet, end: Packet) {
    p.dts == end.dts && p.pos == end.pos && p.pts == end.pts
  }

  // The latest keyframe may not be among the packets that are looked at.
  ghost predicate LosesKeyframe(q: Queue, i: nat) {
    q.kfLatest.Some? && q.base <= q.kfLatest.value <= q.base + i && q.kfLatest.value < q.base + |q.pkts|
  }

  lemma SameOrPast(st: Stream, p: Packet, end: Packet)
    ensures IsAt(st, p, end) <==> SamePacket(st, p, end)
    ensures IsAtOrPast(st, p, end) <==> SamePacket(st, p, end) || PastPacket(st, p, end)
  {
  }

  // What the search for a common packet leaves of the next queue. It fails if it meets
  // the latest keyframe, or a packet that only seems to be the same.
  lemma {:induction false} TrimToJoinIs(q: Queue, end: Packet, st: Stream)
    requires |q.cum| == |q.pkts|
    ensures var t, i := TrimToJoin(q, end, st), Meeting(q.pkts, end, st);
            if LosesKeyframe(q, i) then t.CannotJoin?
            else if i == |q.pkts| then t.NoOverlap? && t.q.pkts == []
            else if !IsAt(st, q.pkts[i], end) then t.NoOverlap? && t.q.pkts == q.pkts[i..]
            else if SameTimes(q.pkts[i], end) then t.Joinable? && t.q.pkts == q.pkts[i + 1..]
            else t.CannotJoin?
    decreases |q.pkts|
  {
    hide SamePacket, PastPacket, IsAt, IsAtOrPast;
    if |q.pkts| > 0 {
      SameOrPast(st, q.pkts[0], end);
      if !IsAtOrPast(st, q.pkts[0], end) {
        TrimToJoinIs(RemoveHead(q), end, st);
      }
    }
  }

  lemma {:induction false} TrimToJoinKeeps(q: Queue, end: Packet, st: Stream)
    requires |q.cum| == |q.pkts|
    ensures var t := TrimToJoin(q, end, st);
            !t.CannotJoin? ==> t.q.seekEnd == q.seekEnd && t.q.isEof == q.isEof
    decreases |q.pkts|
  {
    hide SamePacket, PastPacket;
    if |q.pkts| > 0 {
      TrimToJoinKeeps(RemoveHead(q), end, st);
    }
  }

  lemma TrimStreamKeeps(q1: Queue, q2: Queue, cfg: StreamConfig, st: Stream)
    requires |q2.cum| == |q2.pkts| && TrimStream(q1, q2, cfg, st).Joinable?
    ensures var t := TrimStream(q1, q2, cfg, st).q; t.seekEnd == q2.seekEnd && t.isEof == q2.isEof
  {
    hide TrimToJoin;
    if q1.pkts != [] {
      TrimToJoinKeeps(q2, q1.pkts[|q1.pkts| - 1], st);
    }
  }

  // Streams whose queues have packets can be joined if there is a common one. Sparse
  // streams need none, and an empty queue takes anything.
  lemma TrimStreamIs(q1: Queue, q2: Queue, cfg: StreamConfig, st: Stream)
    requires |q2.cum| == |q2.pkts|
    ensures var t := TrimStream(q1, q2, cfg, st);
            if !st.globalCorrectDts && !st.globalCorrectPos then t.CannotJoin?
            else if q1.pkts == [] then t == Joinable(q2)
            else
              var end := q1.pkts[|q1.pkts| - 1];
              var i := Meeting(q2.pkts, end, st);
              if LosesKeyframe(q2, i) then t.CannotJoin?
              else if i == |q2.pkts| || !IsAt(st, q2.pkts[i], end)
              then if cfg.eager then t.CannotJoin? else t.Joinable? && t.q.pkts == q2.pkts[i..]
              else if SameTimes(q2.pkts[i], end) then t.Joinable? && t.q.pkts == q2.pkts[i + 1..]
              else t.CannotJoin?
  {
    hide TrimToJoin, IsAt, LosesKeyframe, Meeting;
    if q1.pkts != [] {
      TrimToJoinIs(q2, q1.pkts[|q1.pkts| - 1], st);
    }
  }

  // --- Ranges ---

  ghost predicate IsJoined(q1: Queue, q2: Queue, q: Queue) {
    && q.pkts == q1.pkts + q2.pkts && q.base == q1.base
    && q.seekStart == q1.seekStart && q.seekEnd == q2.seekEnd && q.isEof == q2.isEof
  }

  // The stream looks for its place again. A reader that waited for the next packet gets
  // the first one that was added.
  ghost predicate IsJoinedStream(q1: Queue, q2: Queue, cfg: StreamConfig, s: Stream, s': Stream) {
    && s'.refreshing == cfg.selected && !s'.skipToKeyframe && s'.eof == s.eof
    && s'.readerHead == if s.readerHead.Some? || !cfg.selected || q2.pkts == [] then s.readerHead
                        else Some(q1.base + |q1.pkts|)
  }

  lemma JoinIs(q1: Queue, q2: Queue, cfg: StreamConfig, s: Stream)
    ensures IsJoined(q1, q2, Join(q1, q2)) && IsJoinedStream(q1, q2, cfg, s, JoinStream(q1, q2, cfg, s))
  {
    hide AddEntries, SizeAfterEntries, Renumber, Recounted;
  }

  // What a successful join makes of the cache. The queues of the next range, without
  // what both have, come behind those of the current one, and the demuxer is sent to
  // one second before the end.
  lemma JoinOutcome(c: State, i: nat, qs2: seq<Queue>)
    requires c.Shape() && JoinsWith(c) == Some(i)
    requires TrimAll(c.ranges[c.Last()].queues, c.ranges[i].queues, c.cfg, c.streams, |c.cfg|) == Some(qs2)
    requires |qs2| == |c.cfg|
    ensures var c', cur := AttemptJoin(c), c.ranges[c.Last()];
            && |c'.ranges| > 0 && |c'.streams| == |c.cfg| && c'.cfg == c.cfg
            && c'.seeking && c'.seekPts == c.ranges[i].seekEnd - 1.0
            && |c'.ranges[|c'.ranges| - 1].queues| == |c.cfg|
            && (forall n :: 0 <= n < |c.cfg| ==> IsJoined(cur.queues[n], qs2[n], c'.ranges[|c'.ranges| - 1].queues[n]))
            && forall n :: 0 <= n < |c.cfg| ==> IsJoinedStream(cur.queues[n], qs2[n], c.cfg[n], c.streams[n], c'.streams[n])
  {
    hide TrimAll, ChooseNext, FreeEmpty, ClearRange, JoinWith, IsJoined, IsJoinedStream;
    JoinWithOutcome(c, i, qs2);
    var j := JoinWith(c, i, qs2);
    EvictionOutcome(j.ranges[i := ClearRange(j.ranges[i], c.cfg)], c.opts.seekableCache);
  }

  lemma JoinWithOutcome(c: State, i: nat, qs2: seq<Queue>)
    requires c.Shape() && i < c.Last() && |qs2| == |c.cfg|
    ensures var c', cur := JoinWith(c, i, qs2), c.ranges[c.Last()];
            && |c'.ranges| == |c.ranges| && |c'.streams| == |c.cfg| && c'.cfg == c.cfg && c'.opts == c.opts
            && c'.ranges[i] == c.ranges[i]
            && c'.seeking && c'.seekPts == c.ranges[i].seekEnd - 1.0
            && |c'.ranges[c.Last()].queues| == |c.cfg|
            && (forall n :: 0 <= n < |c.cfg| ==> IsJoined(cur.queues[n], qs2[n], c'.ranges[c.Last()].queues[n]))
            && forall n :: 0 <= n < |c.cfg| ==> IsJoinedStream(cur.queues[n], qs2[n], c.cfg[n], c.streams[n], c'.streams[n])
  {
    hide IsJoined, IsJoinedStream, Join, JoinStream, UpdateSeekRanges;
    var cur := c.ranges[c.Last()];
    UpdatedSpan(cur.(queues := JoinAll(cur.queues, qs2)), c.cfg);
    forall n | 0 <= n < |c.cfg|
      ensures IsJoined(cur.queues[n], qs2[n], Join(cur.queues[n], qs2[n]))
      ensures IsJoinedStream(cur.queues[n], qs2[n], c.cfg[n], c.streams[n], JoinStream(cur.queues[n], qs2[n], c.cfg[n], c.streams[n]))
    {
      JoinIs(cur.queues[n], qs2[n], c.cfg[n], c.streams[n]);
    }
  }

  // --- Ranges that are left ---

  lemma {:induction false} TrimNonKeyframesIs(q: Queue)
    requires |q.cum| == |q.pkts|
    ensures var t, k := TrimNonKeyframes(q), NextKeyframe(q.pkts, 0);
            t.pkts == q.pkts[k..] && t.seekStart == q.seekStart && t.seekEnd == q.seekEnd && t.isEof == q.isEof
    decreases |q.pkts|
  {
    if |q.pkts| > 0 && !q.pkts[0].keyframe {
      TrimNonKeyframesIs(RemoveHead(q));
      NextKeyframeUnique(q.pkts[1..], 0, NextKeyframe(q.pkts, 0) - 1);
    }
  }

  // A range that is left keeps its span, and its packets from the first keyframe of
  // each stream on. But if the demuxer could not go on in it, it keeps nothing.
  ghost predicate IsLeft(r: Range, left: Range, resumable: bool) {
    && |left.queues| == |r.queues|
    && if resumable then
         && left.seekStart == r.seekStart && left.seekEnd == r.seekEnd && left.isBof == r.isBof && left.isEof == r.isEof
         && forall n :: 0 <= n < |r.queues| ==>
              var q, t := r.queues[n], left.queues[n];
              t.pkts == q.pkts[NextKeyframe(q.pkts, 0)..] && t.seekStart == q.seekStart && t.seekEnd == q.seekEnd
       else
         left.seekStart == NOPTS && forall n :: 0 <= n < |r.queues| ==> left.queues[n].pkts == []
  }

  // That takes dts or positions which only increased so far, in every selected stream.
  ghost predicate Resumable(c: State) {
    |c.streams| == |c.cfg| && forall n :: 0 <= n < |c.cfg| && c.cfg[n].selected ==>
      c.streams[n].globalCorrectDts || c.streams[n].globalCorrectPos
  }

  // Switching ranges only reorders the others; what can not be sought in, or is too
  // much, goes.
  lemma SwitchOutcome(c: State, i: nat)
    requires c.Shape() && i < c.Last()
    ensures var c' := SwitchRange(c, i);
            && (exists left :: IsLeft(c.ranges[c.Last()], left, Resumable(c))
                               && c'.ranges == FreeEmpty(c.ranges[..i] + c.ranges[i + 1..c.Last()] + [left, c.ranges[i]],
                                                         c.opts.seekableCache))
            && |c'.streams| == |c.cfg|
            && forall n :: 0 <= n < |c.cfg| ==> c'.streams[n] == c.streams[n].(refreshing := false, eof := false)
  {
    hide FreeEmpty, TrimNonKeyframes, ClearAll, UpdateSeekRanges, NextKeyframe, IsLeft;
    var last := c.ranges[c.Last()];
    var prev := TrimRange(last, c.cfg);
    var left := if Unjoinable(c) then ClearRange(prev, c.cfg) else prev;
    LeftIs(last, c.cfg);
    assert IsLeft(last, left, Resumable(c));
    assert c.ranges[..i] + c.ranges[i + 1..c.Last()] + [left] + [c.ranges[i]]
           == c.ranges[..i] + c.ranges[i + 1..c.Last()] + [left, c.ranges[i]];
  }

  lemma LeftIs(r: Range, cfg: seq<StreamConfig>)
    requires QueuesShape(r, cfg)
    ensures IsLeft(r, TrimRange(r, cfg), true) && IsLeft(r, ClearRange(TrimRange(r, cfg), cfg), false)
  {
    hide TrimNonKeyframes, UpdateSeekRanges, NextKeyframe;
    var t := TrimRange(r, cfg);
    ClearedHasNoSpan(t, cfg);
    forall n | 0 <= n < |r.queues|
      ensures t.queues[n].pkts == r.queues[n].pkts[NextKeyframe(r.queues[n].pkts, 0)..]
      ensures t.queues[n].seekStart == r.queues[n].seekStart && t.queues[n].seekEnd == r.queues[n].seekEnd
    {
      TrimNonKeyframesIs(r.queues[n]);
    }
  }
}
