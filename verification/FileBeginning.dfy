// In-cache seeks and the beginning of the file, against the stream that is
// demuxed: what a seek finds, it either starts early enough, or it is the first
// run of the stream.
//
// A queue may start after its range only if it has all of the stream from its
// first keyframe on.

module FileBeginning {
  import opened Timestamps
  import opened Wrappers
  import opened Packets
  import opened SeekTarget
  import opened Queues
  import opened Ranges
  import opened Cache
  import opened CacheInvariants
  import opened Pruning
  import opened CacheRuns
  import opened SeekSoundness

  // --- The invariant ---

  ghost predicate NoKeyframeBefore(s: seq<Packet>, k: int) {
    forall i :: 0 <= i < k && i < |s| ==> !s[i].keyframe
  }

  // The queue lost nothing but packets before the first keyframe.
  ghost predicate OpensAt(q: Queue, s: seq<Packet>, lo: nat) {
    lo + |q.pkts| <= |s| && q.pkts == s[lo..lo + |q.pkts|] && NoKeyframeBefore(s, lo)
  }

  // No keyframe comes before the place where the queue's packets begin; or did
  // begin, if there are none left.
  ghost predicate HeadBegins(q: Queue, s: seq<Packet>) {
    forall hi: nat :: WindowAt(q, s, hi) ==> NoKeyframeBefore(s, hi - |q.pkts|)
  }

  ghost predicate BofOpen(q: Queue, s: seq<Packet>) {
    q.isBof ==> HeadBegins(q, s) && (q.pkts == [] ==> q.seekStart == NOPTS)
  }

  predicate Late(q: Queue, rangeStart: real) {
    q.seekStart != NOPTS && rangeStart != NOPTS && q.seekStart > rangeStart
  }

  ghost predicate OpenQueue(q: Queue, start: real, s: seq<Packet>) {
    BofOpen(q, s) && (Late(q, start) ==> HeadBegins(q, s))
  }

  ghost predicate OpenRange(r: Range, n: nat, s: seq<Packet>) {
    n < |r.queues| && OpenQueue(r.queues[n], r.seekStart, s)
  }

  ghost predicate OpenRanges(rs: seq<Range>, n: nat, s: seq<Packet>) {
    forall r :: 0 <= r < |rs| ==> OpenRange(rs[r], n, s)
  }

  // The packet that a new queue gets first has no keyframe before it. Looking for
  // the end of the queue takes one packet when there is nothing to look for.
  ghost predicate AtBeginning(q: Queue, st: Stream, seeking: bool, s: seq<Packet>, at: nat) {
    Untouched(q) && !seeking ==> NoKeyframeBefore(s, if st.refreshing then at + 1 else at)
  }

  ghost predicate OpenState(c: State, n: nat, s: seq<Packet>, at: nat) {
    && |c.ranges| > 0 && n < |c.streams| && OpenRanges(c.ranges, n, s)
    && var q := c.ranges[|c.ranges| - 1].queues[n];
       q.isBof ==> AtBeginning(q, c.streams[n], c.seeking, s, at)
  }

  // --- Queues ---

  lemma SameHead(q: Queue, r: Queue, s: seq<Packet>)
    requires r.pkts == q.pkts && r.lastDts == q.lastDts && r.lastPos == q.lastPos
    ensures HeadBegins(r, s) == HeadBegins(q, s)
  {
    assert forall hi: nat :: WindowAt(q, s, hi) == WindowAt(r, s, hi);
  }

  // The queue lost k packets, none of which was a keyframe.
  lemma DroppedHead(q: Queue, r: Queue, s: seq<Packet>, k: nat)
    requires Ordered(s) && Window(q, s) && HeadBegins(q, s) && k <= |q.pkts|
    requires r.pkts == q.pkts[k..] && r.lastDts == q.lastDts && r.lastPos == q.lastPos
    requires forall i :: 0 <= i < k ==> !q.pkts[i].keyframe
    ensures HeadBegins(r, s)
  {
    forall hi: nat | WindowAt(r, s, hi)
      ensures NoKeyframeBefore(s, hi - |r.pkts|)
    {
      DroppedWindow(q, r, s, hi);
      DroppedPlace(q, s, hi, k);
    }
  }

  lemma DroppedWindow(q: Queue, r: Queue, s: seq<Packet>, hi: nat)
    requires Ordered(s) && Window(q, s) && WindowAt(r, s, hi) && r.lastDts == q.lastDts && r.lastPos == q.lastPos
    ensures WindowAt(q, s, hi)
  {
    assert !Untouched(q);
    hide Ordered;
    var hi': nat :| WindowAt(q, s, hi');
    SamePosition(s, hi - 1, hi' - 1);
  }

  lemma DroppedPlace(q: Queue, s: seq<Packet>, hi: nat, k: nat)
    requires WindowAt(q, s, hi) && NoKeyframeBefore(s, hi - |q.pkts|) && k <= |q.pkts|
    requires forall i :: 0 <= i < k ==> !q.pkts[i].keyframe
    ensures NoKeyframeBefore(s, hi - |q.pkts| + k)
  {
    var lo := hi - |q.pkts|;
    forall i | lo <= i < lo + k
      ensures !s[i].keyframe
    {
      assert s[i] == q.pkts[i - lo];
    }
  }

  lemma {:induction false} TrimHead(q: Queue, s: seq<Packet>)
    requires Ordered(s) && Window(q, s) && |q.cum| == |q.pkts|
    ensures var t := TrimNonKeyframes(q);
            && (HeadBegins(q, s) ==> HeadBegins(t, s)) && t.seekStart == q.seekStart && (t.isBof ==> t == q)
    decreases |q.pkts|
  {
    hide Window, HeadBegins, Ordered;
    if |q.pkts| > 0 && !q.pkts[0].keyframe {
      if HeadBegins(q, s) {
        DroppedHead(q, RemoveHead(q), s, 1);
      }
      RemoveHeadWindow(q, s);
      TrimHead(RemoveHead(q), s);
    }
  }

  // A packet is appended to a queue that begins the file. If it is the first one
  // there was, no keyframe may come before it.
  lemma AppendBeginsIff(q: Queue, s: seq<Packet>, at: nat)
    requires Ordered(s) && at < |s| && Window(q, s) && HeadBegins(q, s)
    requires forall hi: nat :: WindowAt(q, s, hi) ==> at == hi
    ensures HeadBegins(Append(q, s[at]), s) <==> !Untouched(q) || NoKeyframeBefore(s, at)
  {
    var r := Append(q, s[at]);
    AppendWindow(q, s, at);
    forall hi: nat | WindowAt(r, s, hi)
      ensures hi == at + 1
    {
      WindowUnique(r, s, hi, at + 1);
    }
    if !Untouched(q) {
      assert WindowAt(q, s, at);
    }
  }

  // A queue that begins the file is joined with another one. If it has packets, it
  // goes on to begin the file. Otherwise it takes over the other one, which has to
  // do so itself.
  lemma JoinBeginsIff(q1: Queue, q2: Queue, s: seq<Packet>, cfg: StreamConfig, st: Stream)
    requires Ordered(s) && Window(q1, s) && Window(q2, s) && Counts(cfg) && |q2.cum| == |q2.pkts|
    requires TrimStream(q1, q2, cfg, st).Joinable? && q1.isBof && BofOpen(q1, s)
    ensures BofOpen(Join(q1, TrimStream(q1, q2, cfg, st).q), s) <==> q1.pkts != [] || HeadBegins(q2, s)
  {
    hide SamePacket, PastPacket, TrimToJoin, Join, Ordered, Window, HeadBegins;
    var t := TrimStream(q1, q2, cfg, st).q;
    JoinedPackets(q1, t);
    JoinKeepsStart(q1, t);
    if q1.pkts == [] {
      assert Join(q1, t).pkts == q2.pkts;
      SameHead(q2, Join(q1, t), s);
    } else {
      JoinedHead(q1, q2, s, cfg, st);
    }
  }

  lemma JoinedHead(q1: Queue, q2: Queue, s: seq<Packet>, cfg: StreamConfig, st: Stream)
    requires Ordered(s) && Window(q1, s) && Window(q2, s) && Counts(cfg) && |q2.cum| == |q2.pkts|
    requires TrimStream(q1, q2, cfg, st).Joinable? && q1.pkts != [] && HeadBegins(q1, s)
    ensures HeadBegins(Join(q1, TrimStream(q1, q2, cfg, st).q), s)
  {
    hide SamePacket, PastPacket, TrimToJoin, Join, Ordered, Window, WindowAt;
    var t := TrimStream(q1, q2, cfg, st).q;
    var r := Join(q1, t);
    JoinedPackets(q1, t);
    var hi1 := WindowHi(q1, s);
    LastInWindow(q1, s, hi1);
    TrimToJoinWindow(q2, s, q1.pkts[|q1.pkts| - 1], hi1, st);
    var hi: nat :| Continues(t, s, hi1, hi);
    WindowsMeet(q1, t, r, s, hi1, hi);
    forall hi': nat | WindowAt(r, s, hi')
      ensures hi' == hi
    {
      WindowUnique(r, s, hi', hi);
    }
    MetPlace(q1, t, s, hi1, hi);
  }

  lemma MetPlace(q1: Queue, t: Queue, s: seq<Packet>, hi1: nat, hi: nat)
    requires HeadBegins(q1, s) && WindowAt(q1, s, hi1) && Continues(t, s, hi1, hi)
    ensures NoKeyframeBefore(s, hi - (|q1.pkts| + |t.pkts|))
  {
  }

  lemma LastInWindow(q: Queue, s: seq<Packet>, hi: nat)
    requires WindowAt(q, s, hi) && q.pkts != []
    ensures 0 < hi <= |s| && q.pkts[|q.pkts| - 1] == s[hi - 1]
  {
  }

  // --- Ranges ---

  // Only what begins the file matters when the span is recomputed.
  lemma UpdateOpen(r: Range, n: nat, cfg: seq<StreamConfig>, s: seq<Packet>)
    requires n < |r.queues| == |cfg| && Counts(cfg[n]) && BofOpen(r.queues[n], s)
    ensures OpenRange(UpdateSeekRanges(r, cfg), n, s)
  {
    hide HeadBegins;
    UpdatedSpan(r, cfg);
  }

  lemma ClearOpen(r: Range, n: nat, cfg: seq<StreamConfig>, s: seq<Packet>)
    requires n < |r.queues| == |cfg|
    ensures OpenRange(ClearRange(r, cfg), n, s)
  {
    ClearedHasNoSpan(r, cfg);
  }

  // A queue was replaced, and the span did not change.
  lemma SetOpen(r: Range, m: nat, q: Queue, n: nat, s: seq<Packet>)
    requires OpenRange(r, n, s) && m < |r.queues|
    requires m == n ==> OpenQueue(q, r.seekStart, s)
    ensures OpenRange(SetQueue(r, m, q), n, s)
  {
  }

  lemma SetOpenRange(rs: seq<Range>, i: nat, r: Range, n: nat, s: seq<Packet>)
    requires i < |rs| && OpenRanges(rs, n, s) && OpenRange(r, n, s)
    ensures OpenRanges(rs[i := r], n, s)
  {
  }

  lemma FreeEmptyOpen(rs: seq<Range>, seekable: bool, n: nat, s: seq<Packet>)
    requires |rs| > 0 && OpenRanges(rs, n, s)
    ensures var e := FreeEmpty(rs, seekable);
            OpenRanges(e, n, s) && |e| > 0 && e[|e| - 1] == rs[|rs| - 1]
  {
    hide OpenRange;
    var e := FreeEmpty(rs, seekable);
    EvictionOutcome(rs, seekable);
    SubsequenceMembers(e[..|e| - 1], rs[..|rs| - 1]);
    forall r | 0 <= r < |e|
      ensures exists i :: 0 <= i < |rs| && rs[i] == e[r]
    {
      if r < |e| - 1 {
        assert e[r] in e[..|e| - 1] && e[r] in rs[..|rs| - 1];
      } else {
        assert rs[|rs| - 1] == e[r];
      }
    }
  }

  lemma FreeEmptyStateOpen(c: State, n: nat, s: seq<Packet>, at: nat)
    requires OpenState(c, n, s, at)
    ensures OpenState(FreeEmptyRanges(c), n, s, at)
  {
    hide OpenRanges, AtBeginning, FreeEmpty;
    FreeEmptyOpen(c.ranges, c.opts.seekableCache, n, s);
  }

  lemma OpenCurrent(c: State, n: nat, s: seq<Packet>, at: nat)
    requires OpenState(c, n, s, at)
    ensures OpenRange(c.ranges[|c.ranges| - 1], n, s)
  {
  }

  // --- Joining ---

  lemma DiscardOpen(c: State, i: nat, n: nat, s: seq<Packet>, at: nat)
    requires OpenState(c, n, s, at) && i < |c.ranges| - 1 && |c.ranges[i].queues| == |c.cfg|
    ensures OpenState(FreeEmptyRanges(WithRange(c, i, ClearRange(c.ranges[i], c.cfg))), n, s, at)
  {
    hide OpenRange, AtBeginning, FreeEmptyRanges, ClearRange;
    assert OpenRange(c.ranges[i], n, s);
    QueuesOf(c.ranges[i], n, s);
    ClearOpen(c.ranges[i], n, c.cfg, s);
    SetOpenRange(c.ranges, i, ClearRange(c.ranges[i], c.cfg), n, s);
    FreeEmptyStateOpen(WithRange(c, i, ClearRange(c.ranges[i], c.cfg)), n, s, at);
  }

  lemma QueuesOf(r: Range, n: nat, s: seq<Packet>)
    requires OpenRange(r, n, s)
    ensures n < |r.queues|
  {
  }

  lemma JoinWithOpen(c: State, i: nat, qs2: seq<Queue>, n: nat, s: seq<Packet>, at: nat)
    requires OpenState(c, n, s, at) && c.Shape() && i < c.Last() && |qs2| == |c.cfg| && n < |c.cfg| && Counts(c.cfg[n])
    requires BofOpen(Join(c.ranges[c.Last()].queues[n], qs2[n]), s)
    ensures OpenState(JoinWith(c, i, qs2), n, s, at)
  {
    hide UpdateSeekRanges, Join, BofOpen, OpenRange;
    var cur := c.ranges[c.Last()];
    var joined := cur.(queues := JoinAll(cur.queues, qs2));
    UpdateOpen(joined, n, c.cfg, s);
    UpdatedSpan(joined, c.cfg);
    SetOpenRange(c.ranges, c.Last(), UpdateSeekRanges(joined, c.cfg), n, s);
  }

  // What is asked of a join with an empty queue that begins the file.
  ghost predicate JoinBegins(c: State, n: nat, s: seq<Packet>)
    requires c.Shape() && n < |c.cfg|
  {
    var q := c.ranges[c.Last()].queues[n];
    q.isBof && q.pkts == [] && JoinsWith(c).Some? ==> HeadBegins(c.ranges[JoinsWith(c).value].queues[n], s)
  }

  lemma AttemptJoinOpen(c: State, n: nat, s: seq<Packet>, at: nat)
    requires OpenState(c, n, s, at) && Tracks(c, n, s, at) && Ordered(s) && c.Shape() && n < |c.cfg| && Counts(c.cfg[n])
    requires JoinBegins(c, n, s)
    ensures OpenState(AttemptJoin(c), n, s, at)
  {
    hide JoinWith, TrimStream, Join, FreeEmptyRanges, ClearRange, HeadBegins, Tracks, Window, WindowAt, Ordered;
    NextIsNotCurrent(c.ranges, c.Last());
    OpenCurrent(c, n, s, at);
    var next := ChooseNext(c.ranges, c.Last());
    if next.Some? {
      var i, cur := next.value, c.ranges[c.Last()];
      var qs2 := TrimAll(cur.queues, c.ranges[i].queues, c.cfg, c.streams, |c.cfg|);
      if qs2.Some? {
        TrimAllAt(cur.queues, c.ranges[i].queues, c.cfg, c.streams, |c.cfg|, n);
        TracksWindows(c, n, s, at, i);
        if cur.queues[n].isBof {
          JoinBeginsIff(cur.queues[n], c.ranges[i].queues[n], s, c.cfg[n], c.streams[n]);
        } else {
          JoinKeepsStart(cur.queues[n], qs2.value[n]);
        }
        JoinWithOpen(c, i, qs2.value, n, s, at);
        JoinWithKeeps(c, i, qs2.value);
        DiscardOpen(JoinWith(c, i, qs2.value), i, n, s, at);
      } else {
        DiscardOpen(c, i, n, s, at);
      }
    }
  }

  // --- Adding packets, EOF ---

  // The state in which adjust_seek_range_on_packet() looks for a range to join.
  function Adjusted(c: State, m: nat, dp: Option<nat>): (c': State)
    requires c.Shape() && m < |c.cfg|
    ensures c'.Shape() && c'.cfg == c.cfg
  {
    var r := c.ranges[c.Last()];
    var r' := SetQueue(r, m, AdjustQueue(r.queues[m], dp, c.cfg[m].preroll));
    UpdatedSpan(r', c.cfg);
    WithRange(c, c.Last(), UpdateSeekRanges(r', c.cfg))
  }

  ghost predicate AdjustBegins(c: State, m: nat, dp: Option<nat>, n: nat, s: seq<Packet>)
    requires c.Shape() && m < |c.cfg| && n < |c.cfg|
  {
    var r := c.ranges[c.Last()];
    c.opts.seekableCache && NeedsUpdate(r.queues[m], dp, r.seekEnd) && c.cfg[m].eager
    ==> JoinBegins(Adjusted(c, m, dp), n, s)
  }

  lemma AdjustOpen(c: State, m: nat, dp: Option<nat>, n: nat, s: seq<Packet>, at: nat)
    requires OpenState(c, n, s, at) && Tracks(c, n, s, at) && Ordered(s)
    requires c.Shape() && m < |c.cfg| && n < |c.cfg| && Counts(c.cfg[n]) && AdjustBegins(c, m, dp, n, s)
    requires c.ranges[c.Last()].queues[n].pkts == [] ==> c.ranges[c.Last()].queues[n].kfLatest.None?
    ensures OpenState(AdjustSeekRange(c, m, dp), n, s, at)
  {
    hide HeadBegins, AttemptJoin, LatestMin, LatestMax, UpdateSeekRanges, Tracks, Narrows, OpenRanges, Ordered, MovesKeyframe,
         JoinBegins, NeedsUpdate;
    if c.opts.seekableCache {
      var r := c.ranges[c.Last()];
      var q := r.queues[m];
      var q' := AdjustQueue(q, dp, c.cfg[m].preroll);
      var r' := SetQueue(r, m, q');
      OpenCurrent(c, n, s, at);
      SameHead(q, q', s);
      assert BofOpen(r'.queues[n], s);
      var u := UpdateSeekRanges(r', c.cfg);
      UpdatedSpan(r', c.cfg);
      SameNarrows(r.queues[n], r'.queues[n], s);
      UpdateOpen(r', n, c.cfg, s);
      if NeedsUpdate(q, dp, r.seekEnd) && c.cfg[m].eager {
        SetOpenRange(c.ranges, c.Last(), u, n, s);
        NarrowerRangeTracks(c, c.Last(), u, n, s, at);
        AttemptJoinOpen(WithRange(c, c.Last(), u), n, s, at);
      } else {
        NoUpdateOpen(r, m, dp, c.cfg, n, s);
        SetOpenRange(c.ranges, c.Last(), r', n, s);
      }
    }
  }

  lemma NoUpdateOpen(r: Range, m: nat, dp: Option<nat>, cfg: seq<StreamConfig>, n: nat, s: seq<Packet>)
    requires OpenRange(r, n, s) && m < |r.queues| == |cfg| && n < |cfg| && Counts(cfg[n])
    requires !(NeedsUpdate(r.queues[m], dp, r.seekEnd) && cfg[m].eager)
    requires r.queues[n].pkts == [] ==> r.queues[n].kfLatest.None?
    ensures OpenRange(SetQueue(r, m, AdjustQueue(r.queues[m], dp, cfg[m].preroll)), n, s)
  {
    hide HeadBegins, LatestMin, LatestMax, MovesKeyframe;
    var q := r.queues[m];
    var q' := AdjustQueue(q, dp, cfg[m].preroll);
    SameHead(q, q', s);
    SetOpen(r, m, q', n, s);
  }

  lemma AppendOpen(c: State, n: nat, w: seq<Packet>, at: nat)
    requires CacheOk(c) && c.Shape() && n < |c.cfg| && Counts(c.cfg[n]) && at < |w|
    requires var s := StoredAll(w, c.cfg[n]);
             OpenState(c, n, s, at) && Tracks(c, n, s, at) && Ordered(s)
    requires !c.seeking && !c.streams[n].refreshing
    ensures OpenState(AppendPacket(c, n, w[at]), n, StoredAll(w, c.cfg[n]), at + 1)
  {
    hide HeadBegins, CacheOk, Window, WindowAt, Ordered, OpenRanges, NoKeyframeBefore;
    var s := StoredAll(w, c.cfg[n]);
    var r := c.ranges[c.Last()];
    var q := r.queues[n];
    OpenCurrent(c, n, s, at);
    StartHasPackets(c, n);
    assert Window(q, s);
    if HeadBegins(q, s) && (q.isBof || q.seekStart != NOPTS) {
      AppendBeginsIff(q, s, at);
    }
    SetOpen(r, n, Append(q, s[at]), n, s);
    SetOpenRange(c.ranges, c.Last(), SetQueue(r, n, Append(q, s[at])), n, s);
  }

  lemma StartHasPackets(c: State, n: nat)
    requires CacheOk(c) && c.Shape() && n < |c.cfg|
    ensures var q := c.ranges[c.Last()].queues[n];
            (q.seekStart != NOPTS ==> q.pkts != []) && (q.pkts == [] ==> q.kfLatest.None?)
  {
    assert RangeOk(c.ranges[c.Last()], c.cfg) && QueueOk(c.ranges[c.Last()].queues[n], c.cfg[n]);
  }

  lemma AddPacketOpen(c: State, n: nat, w: seq<Packet>, at: nat)
    requires CacheOk(c) && c.Shape() && n < |c.cfg| && Counts(c.cfg[n]) && Ordered(w) && at < |w|
    requires OpenState(c, n, StoredAll(w, c.cfg[n]), at) && Tracks(c, n, StoredAll(w, c.cfg[n]), at)
    ensures OpenState(AddPacket(c, n, w[at]), n, StoredAll(w, c.cfg[n]), at + 1)
  {
    hide CacheOk, OpenRanges, AdjustSeekRange, HeadBegins, OpenState, AppendPacket;
    var s := StoredAll(w, c.cfg[n]);
    StoredOrdered(w, c.cfg[n]);
    if c.seeking || c.streams[n].refreshing {
      DroppedOpen(c, n, w, at);
    } else {
      AppendOpen(c, n, w, at);
      AppendTracks(c, n, w, at);
      AppendShape(c, n, w[at]);
      AppendedOne(c, n, w[at]);
      AdjustOpen(AppendPacket(c, n, w[at]), n, Some(c.ranges[c.Last()].queues[n].End()), n, s, at + 1);
    }
  }

  lemma AppendedOne(c: State, n: nat, p: Packet)
    requires c.Shape() && n < |c.cfg|
    ensures var c' := AppendPacket(c, n, p);
            && c'.Shape() && c'.cfg == c.cfg && c'.ranges[c'.Last()].queues[n].pkts != []
            && forall dp, s :: AdjustBegins(c', n, dp, n, s)
  {
  }

  // The packet is dropped.
  lemma DroppedOpen(c: State, n: nat, w: seq<Packet>, at: nat)
    requires c.Shape() && n < |c.cfg| && Counts(c.cfg[n]) && Ordered(w) && at < |w| && (c.seeking || c.streams[n].refreshing)
    requires OpenState(c, n, StoredAll(w, c.cfg[n]), at) && Tracks(c, n, StoredAll(w, c.cfg[n]), at)
    ensures OpenState(AddPacket(c, n, w[at]), n, StoredAll(w, c.cfg[n]), at + 1)
  {
    hide OpenRanges, AdjustSeekRange, NoKeyframeBefore;
    assert w[at].dts >= NOPTS && w[at].len > 0;
    assert Window(c.ranges[c.Last()].queues[n], StoredAll(w, c.cfg[n]));
  }

  lemma OtherPacketOpen(c: State, m: nat, p: Packet, n: nat, s: seq<Packet>, at: nat)
    requires CacheOk(c) && OpenState(c, n, s, at) && Tracks(c, n, s, at) && Ordered(s)
    requires c.Shape() && m < |c.cfg| && m != n && n < |c.cfg| && Counts(c.cfg[n]) && Begins(c, Deliver(m, p), n, s, at)
    ensures OpenState(AddPacket(c, m, p), n, s, at)
  {
    hide CacheOk, StillRefreshing, OpenRanges, AdjustSeekRange, Tracks, HeadBegins, Ordered, AdjustBegins;
    if !(p.len == 0 || !c.cfg[m].selected || c.seeking) && !c.streams[m].refreshing {
      var r := c.ranges[c.Last()];
      OpenCurrent(c, n, s, at);
      SetOpen(r, m, Append(r.queues[m], Stored(p, c.cfg[m])), n, s);
      SetOpenRange(c.ranges, c.Last(), SetQueue(r, m, Append(r.queues[m], Stored(p, c.cfg[m]))), n, s);
      OtherAppendTracks(c, m, p, n, s, at);
      AppendShape(c, m, p);
      StartHasPackets(c, n);
      AdjustOpen(AppendPacket(c, m, p), m, Some(r.queues[m].End()), n, s, at);
    }
  }

  lemma MarkEofOpen(c: State, m: nat, n: nat, s: seq<Packet>, at: nat)
    requires CacheOk(c) && OpenState(c, n, s, at) && Tracks(c, n, s, at) && Ordered(s)
    requires c.Shape() && m < |c.cfg| && n < |c.cfg| && Counts(c.cfg[n]) && Begins(c, ReachEof(m), n, s, at)
    ensures OpenState(MarkEof(c, m), n, s, at)
  {
    hide CacheOk, OpenRanges, AdjustSeekRange, Tracks, HeadBegins, Ordered, AdjustBegins;
    if !c.streams[m].eof {
      var c' := WithStream(c, m, c.streams[m].(eof := true));
      SameSyncTracks(c, c', n, s, at);
      StartHasPackets(c, n);
      AdjustOpen(c', m, None, n, s, at);
    }
  }

  // What is asked of the steps of a run: when queues are marked to begin the file,
  // and when demuxing resumes in one that is so marked and got no packet yet, the
  // demuxer has not skipped a keyframe; and if such a queue is joined with another
  // one, that one begins the file too.
  ghost predicate Begins(c: State, op: Op, n: nat, s: seq<Packet>, at: nat)
    requires c.Shape() && n < |c.cfg|
  {
    var q := c.ranges[c.Last()].queues[n];
    match op
    case Deliver(m, p) =>
      m < |c.cfg| && m != n && Appends(c, m, p)
      ==> AdjustBegins(AppendPacket(c, m, p), m, Some(c.ranges[c.Last()].queues[m].End()), n, s)
    case ReachEof(m) =>
      m < |c.cfg| && !c.streams[m].eof ==> AdjustBegins(WithStream(c, m, c.streams[m].(eof := true)), m, None, n, s)
    case MarkBof => c.streams[n].refreshing || (HeadBegins(q, s) && AtBeginning(q, c.streams[n], c.seeking, s, at))
    case ExecuteSeek => q.isBof ==> AtBeginning(q, c.streams[n], false, s, at)
    case _ => true
  }

  // --- Pruning ---

  lemma PrunedRangeOpen(r: Range, k: nat, reader: Option<nat>, seekable: bool, n: nat, cfg: seq<StreamConfig>, s: seq<Packet>)
    requires OpenRange(r, n, s) && |r.queues| == |cfg| && k < |cfg| && n < |cfg| && Counts(cfg[n])
    requires Ordered(s) && Window(r.queues[n], s)
    requires |r.queues[k].cum| == |r.queues[k].pkts| && Prunable(r.queues[k], reader)
    requires reader.Some? ==> r.queues[k].base <= reader.value
    ensures OpenRange(PrunedRange(r, k, PruneQueue(r.queues[k], reader, seekable, cfg[k].preroll), cfg), n, s)
  {
    hide HeadBegins, UpdateSeekRanges, PruneQueue, StartFrom, Ordered, Window;
    var q := r.queues[k];
    PruneQueueIs(q, reader, seekable, cfg[k].preroll);
    var p := PruneQueue(q, reader, seekable, cfg[k].preroll);
    if p.kfPruned && StartMoved(r, p.q) {
      UpdateOpen(SetQueue(r, k, p.q), n, cfg, s);
    } else {
      if !p.kfPruned && k == n {
        PrunedBounds(q, reader, seekable, cfg[k].preroll);
        if HeadBegins(q, s) {
          DroppedHead(q, p.q, s, PruneStop(q, reader, seekable));
        }
      }
      SetOpen(r, k, p.q, n, s);
    }
  }

  // A round that prunes no keyframe does not touch the bounds.
  lemma PrunedBounds(q: Queue, reader: Option<nat>, seekable: bool, preroll: real)
    requires |q.cum| == |q.pkts| && Prunable(q, reader) && (reader.Some? ==> q.base <= reader.value)
    requires !PruneQueue(q, reader, seekable, preroll).kfPruned
    ensures var p := PruneQueue(q, reader, seekable, preroll).q;
            p.seekStart == q.seekStart && p.lastDts == q.lastDts && p.lastPos == q.lastPos
    ensures forall i :: 0 <= i < PruneStop(q, reader, seekable) ==> !q.pkts[i].keyframe
  {
    PruneQueueIs(q, reader, seekable, preroll);
    PruneRunBounds(q, reader, seekable, !q.pkts[0].keyframe, false);
    hide PruneRun;
  }

  lemma {:induction false} PruneRunBounds(q: Queue, reader: Option<nat>, seekable: bool, nonKf: bool, kf: bool)
    requires |q.cum| == |q.pkts|
    ensures var p := PruneRun(q, reader, seekable, nonKf, kf).q;
            p.seekStart == q.seekStart && p.lastDts == q.lastDts && p.lastPos == q.lastPos
    decreases |q.pkts|
  {
    if Prunable(q, reader) && !(q.pkts[0].keyframe && (kf || nonKf) && seekable) {
      PruneRunBounds(RemoveHead(q), reader, seekable, nonKf, kf || q.pkts[0].keyframe);
    }
  }

  lemma PruneStreamOpen(c: State, k: nat, n: nat, s: seq<Packet>, at: nat)
    requires CacheOk(c) && c.Shape() && k < |c.cfg| && n < |c.cfg| && Counts(c.cfg[n])
    requires OpenState(c, n, s, at) && Tracks(c, n, s, at) && Ordered(s)
    requires Prunable(c.ranges[0].queues[k], ReaderIn(c, 0, k))
    ensures OpenState(PruneStream(c, k), n, s, at)
  {
    hide OpenQueue, PrunedRange, PruneQueue, FreeEmptyRanges, QueueOk, RangesOk, OthersSeekable, PruneStream, Window, Ordered, InSync;
    var r, reader := c.ranges[0], ReaderIn(c, 0, k);
    assert OpenRange(r, n, s) && ReaderOk(c.ranges[c.Last()].queues[k], c.streams[k]) && Window(r.queues[n], s);
    var p := PruneQueue(r.queues[k], reader, c.opts.seekableCache, c.cfg[k].preroll);
    PrunedIsNotBof(r.queues[k], reader, c.opts.seekableCache, c.cfg[k].preroll);
    PrunedRangeOpen(r, k, reader, c.opts.seekableCache, n, c.cfg, s);
    PrunedRangeQueues(r, k, p, c.cfg);
    PruneStreamUnfolded(c, k);
    SetOpenRange(c.ranges, 0, PrunedRange(r, k, p, c.cfg), n, s);
    FreeEmptyStateOpen(WithRange(c, 0, PrunedRange(r, k, p, c.cfg)), n, s, at);
  }

  lemma {:induction false} PruneOpen(c: State, n: nat, s: seq<Packet>, at: nat)
    requires CacheOk(c) && c.Shape() && n < |c.cfg| && Counts(c.cfg[n])
    requires OpenState(c, n, s, at) && Tracks(c, n, s, at) && Ordered(s)
    ensures OpenState(Prune(c), n, s, at)
    decreases TotalPackets(c.ranges)
  {
    hide CacheOk, OpenState, Earliest, PruneStream, WithinBudget, Tracks, Ordered;
    if !WithinBudget(c) {
      var k := Earliest(c, 0, None);
      EarliestIsPrunable(c, 0, None);
      if k.Some? {
        PruneStreamOk(c, k.value);
        PruneStreamShrinks(c, k.value);
        PruneStreamTracks(c, k.value, n, s, at);
        PruneStreamOpen(c, k.value, n, s, at);
        PruneOpen(PruneStream(c, k.value), n, s, at);
      }
    }
  }

  // --- Seeking ---

  lemma TrimRangeOpen(r: Range, n: nat, cfg: seq<StreamConfig>, s: seq<Packet>)
    requires QueuesShape(r, cfg) && n < |cfg| && OpenRange(r, n, s) && Ordered(s) && Window(r.queues[n], s)
    ensures OpenRange(TrimRange(r, cfg), n, s)
  {
    hide HeadBegins, Ordered, Window;
    TrimHead(r.queues[n], s);
  }

  lemma SwitchRangeOpen(c: State, i: nat, n: nat, s: seq<Packet>)
    requires c.Shape() && i < c.Last() && n < |c.cfg| && OpenRanges(c.ranges, n, s) && Ordered(s)
    requires Window(c.ranges[c.Last()].queues[n], s)
    ensures OpenRanges(SwitchRange(c, i).ranges, n, s)
  {
    hide OpenRange, TrimRange, ClearRange, Unjoinable, FreeEmpty, Ordered, Window;
    var last := c.ranges[c.Last()];
    var prev := TrimRange(last, c.cfg);
    TrimRangeOpen(last, n, c.cfg, s);
    TrimKeepsCount(last, c.cfg);
    ClearOpen(prev, n, c.cfg, s);
    var prev' := if Unjoinable(c) then ClearRange(prev, c.cfg) else prev;
    var rs := c.ranges[..i] + c.ranges[i + 1..c.Last()] + [prev'] + [c.ranges[i]];
    forall r | 0 <= r < |rs|
      ensures OpenRange(rs[r], n, s)
    {
      assert rs[r] == if r < i then c.ranges[r] else if r < c.Last() - 1 then c.ranges[r + 1]
                      else if r == c.Last() - 1 then prev' else c.ranges[i];
    }
    FreeEmptyOpen(rs, c.opts.seekableCache, n, s);
  }

  // Nothing is known of the demuxer's position while a seek is pending.
  lemma CacheSeekOpen(c: State, i: nat, to: SeekPoint, hr: bool, n: nat, s: seq<Packet>, at: nat)
    requires c.Shape() && i < |c.ranges| && n < |c.cfg| && OpenState(c, n, s, at) && Tracks(c, n, s, at) && Ordered(s)
    ensures OpenState(CacheSeek(c, i, to, hr), n, s, at)
  {
    hide OpenRanges, SeekStreams, SwitchRange, AdjustTarget, Window, Ordered, InSync;
    var r := c.ranges[i];
    var to' := if hr then to else AdjustTarget(r, c.cfg, to, 0);
    var c1 := c.(streams := SeekStreams(c, r, to'));
    if i != c.Last() {
      assert Window(c.ranges[c.Last()].queues[n], s);
      SwitchRangeOpen(c1, i, n, s);
      SwitchKeepsConfig(c1, i);
      SwitchedTo(c1, i, n);
    } else {
      SameSyncOpen(c, c1, n, s, at) by { SeekKeepsSync(c, r, to', n); }
    }
  }

  lemma SeekKeepsSync(c: State, r: Range, to: SeekPoint, n: nat)
    requires |c.streams| == |c.cfg| == |r.queues| && n < |c.streams|
    ensures SeekStreams(c, r, to)[n].refreshing == c.streams[n].refreshing
  {
  }

  lemma FreshRangeOpen(c: State, n: nat, s: seq<Packet>, at: nat, pts: real)
    requires c.Shape() && n < |c.cfg| && OpenState(c, n, s, at) && Tracks(c, n, s, at) && Ordered(s)
    ensures OpenState(FreshRange(c).(seeking := true, seekPts := pts), n, s, at)
  {
    hide OpenRange, SwitchRange, ClearRange, Window, Ordered, InSync;
    var last := c.ranges[c.Last()];
    assert Window(last.queues[n], s);
    if !c.opts.seekableCache {
      ClearOpen(last, n, c.cfg, s);
      ClearedHasNoSpan(last, c.cfg);
      SetOpenRange(c.ranges, c.Last(), ClearRange(last, c.cfg), n, s);
    } else {
      assert OpenRange(NewRange(c.cfg), n, s) by { NewRangeOpen(c.cfg, n, s); }
      var c1 := c.(ranges := c.ranges[..c.Last()] + [NewRange(c.cfg), last]);
      SwitchRangeOpen(c1, c.Last(), n, s);
      SwitchedTo(c1, c.Last(), n);
    }
  }

  lemma NewRangeOpen(cfg: seq<StreamConfig>, n: nat, s: seq<Packet>)
    requires n < |cfg|
    ensures OpenRange(NewRange(cfg), n, s)
  {
  }

  lemma QueueSeekOpen(c: State, to: SeekPoint, hr: bool, cached: bool, seekable: bool, n: nat, s: seq<Packet>, at: nat)
    requires c.Shape() && n < |c.cfg| && OpenState(c, n, s, at) && Tracks(c, n, s, at) && Ordered(s)
    ensures OpenState(QueueSeek(c, to, hr, cached, seekable), n, s, at)
  {
    hide CacheSeek, FreshRange, OpenState, Tracks, Ordered;
    var k := if c.opts.seekableCache then FindCacheRange(c, to.pts, 0) else |c.ranges|;
    ClearReadersTracks(c, n, s, at);
    SameSyncOpen(c, ClearReaders(c), n, s, at) by { ClearKeepsSync(c, n, s, at); }
    if to.pts == NOPTS {
    } else if k < |c.ranges| {
      CacheSeekOpen(ClearReaders(c), k, to, hr, n, s, at);
    } else if !(cached || !seekable) {
      FreshRangeOpen(ClearReaders(c), n, s, at, to.pts);
    }
  }

  lemma ClearKeepsSync(c: State, n: nat, s: seq<Packet>, at: nat)
    requires OpenState(c, n, s, at)
    ensures n < |ClearReaders(c).streams| && ClearReaders(c).streams[n].refreshing == c.streams[n].refreshing
  {
  }

  // --- Runs ---

  ghost predicate RunBegins(c: State, ops: seq<Op>, n: nat, s: seq<Packet>, ats: seq<nat>)
    requires CacheOk(c) && c.Shape() && n < |c.cfg|
    decreases |ops|
  {
    if |ops| == 0 then true
    else
      StepOk(c, ops[0]);
      StepConfig(c, ops[0]);
      |ats| > 1 && Begins(c, ops[0], n, s, ats[1]) && RunBegins(Step(c, ops[0]), ops[1..], n, s, ats[1..])
  }

  lemma SameSyncOpen(c: State, c': State, n: nat, s: seq<Packet>, at: nat)
    requires OpenState(c, n, s, at) && c'.ranges == c.ranges && c'.seeking == c.seeking
    requires n < |c'.streams| && c'.streams[n].refreshing == c.streams[n].refreshing
    ensures OpenState(c', n, s, at)
  {
    hide OpenRanges;
  }

  // Marking a queue keeps the invariant if and only if the stream is refreshed, or
  // no keyframe comes before the queue.
  lemma MarkBeginsIff(q: Queue, cfg: StreamConfig, st: Stream, s: seq<Packet>)
    requires QueueOk(q, cfg) && cfg.selected
    ensures BofOpen(Marked(q, cfg, st), s) <==> st.refreshing || HeadBegins(q, s)
  {
    hide HeadBegins, Consistent;
    SameHead(q, Marked(q, cfg, st), s);
  }

  lemma MarkBofOpen(c: State, n: nat, s: seq<Packet>, at: nat)
    requires CacheOk(c) && OpenState(c, n, s, at)
    requires c.Shape() && n < |c.cfg| && Counts(c.cfg[n]) && Begins(c, MarkBof, n, s, at)
    ensures OpenState(MarkBofStep(c), n, s, at)
  {
    hide OpenRanges, HeadBegins, QueueOk, NoKeyframeBefore;
    var r, r' := c.ranges[c.Last()], MarkBofStep(c).ranges[c.Last()];
    OpenCurrent(c, n, s, at);
    assert RangeOk(r, c.cfg) && QueueOk(r.queues[n], c.cfg[n]);
    SameHead(r.queues[n], r'.queues[n], s);
    MarkBeginsIff(r.queues[n], c.cfg[n], c.streams[n], s);
    SetOpenRange(c.ranges, c.Last(), r', n, s);
  }

  lemma StepOpen(c: State, op: Op, n: nat, w: seq<Packet>, at: nat, at': nat)
    requires CacheOk(c) && c.Shape() && n < |c.cfg| && Counts(c.cfg[n]) && Ordered(w)
    requires var s := StoredAll(w, c.cfg[n]);
             Tracks(c, n, s, at) && OpenState(c, n, s, at) && Begins(c, op, n, s, at')
    requires Moves(c, op, n, w, at, at')
    ensures OpenState(Step(c, op), n, StoredAll(w, c.cfg[n]), at')
  {
    hide CacheOk, Tracks, OpenState, AddPacket, MarkEof, Prune, QueueSeek, FreeEmptyRanges, Advance, ResumesBefore, AdjustBegins,
         Ordered;
    var s := StoredAll(w, c.cfg[n]);
    StoredOrdered(w, c.cfg[n]);
    match op {
      case Deliver(m, p) =>
        if m < |c.cfg| {
          if m == n {
            AddPacketOpen(c, n, w, at);
            AddPacketTracks(c, n, w, at);
          } else {
            OtherPacketOpen(c, m, p, n, s, at);
            OtherPacketTracks(c, m, p, n, s, at);
          }
          AddPacketOk(c, m, p);
          OkHasShape(AddPacket(c, m, p));
          AddPacketConfig(c, m, p);
          PruneOpen(AddPacket(c, m, p), n, s, at');
        }
      case ReachEof(m) =>
        if m < |c.cfg| {
          MarkEofOpen(c, m, n, s, at);
        }
      case Read(m) =>
        if m < |c.cfg| {
          ReadOk(c, m);
          AdvanceOpen(c, m, n, s, at);
          AdvanceTracks(c, m, n, s, at);
          PruneOpen(WithStream(c, m, Advance(c.ranges[c.Last()].queues[m], c.streams[m])), n, s, at);
        }
      case Seek(to, hr, cached, seekable) =>
        QueueSeekOpen(c, to, hr, cached, seekable, n, s, at);
      case MarkBof =>
        MarkBofOpen(c, n, s, at);
      case ExecuteSeek =>
        ExecuteSeekOpen(c, n, s, at, at');
      case SetOptions(opts) =>
        var c1 := c.(opts := opts);
        OptionsOk(c, opts);
        SameSyncOpen(c, c1, n, s, at);
        SameSyncTracks(c, c1, n, s, at);
        PruneOpen(c1, n, s, at);
        FreeEmptyStateOpen(Prune(c1), n, s, at);
    }
  }

  lemma AdvanceOpen(c: State, m: nat, n: nat, s: seq<Packet>, at: nat)
    requires OpenState(c, n, s, at) && c.Shape() && m < |c.cfg|
    ensures OpenState(WithStream(c, m, Advance(c.ranges[c.Last()].queues[m], c.streams[m])), n, s, at)
  {
    SameSyncOpen(c, WithStream(c, m, Advance(c.ranges[c.Last()].queues[m], c.streams[m])), n, s, at);
  }

  lemma ExecuteSeekOpen(c: State, n: nat, s: seq<Packet>, at: nat, at': nat)
    requires c.Shape() && n < |c.cfg| && OpenState(c, n, s, at) && Begins(c, ExecuteSeek, n, s, at')
    ensures OpenState(c.(seeking := false), n, s, at')
  {
    hide OpenRanges, NoKeyframeBefore;
  }

  lemma {:induction false} RunOpens(c: State, ops: seq<Op>, n: nat, w: seq<Packet>, ats: seq<nat>)
    requires CacheOk(c) && c.Shape() && n < |c.cfg| && Counts(c.cfg[n]) && Ordered(w)
    requires var s := StoredAll(w, c.cfg[n]);
             |ats| > 0 && Tracks(c, n, s, ats[0]) && OpenState(c, n, s, ats[0]) && RunBegins(c, ops, n, s, ats)
    requires Follows(c, ops, n, w, ats)
    ensures OpenState(Run(c, ops), n, StoredAll(w, c.cfg[n]), ats[|ats| - 1]) && Run(c, ops).cfg == c.cfg
    decreases |ops|
  {
    hide CacheOk, Tracks, OpenState, Step, Moves, Begins;
    if |ops| > 0 {
      StepOk(c, ops[0]);
      StepConfig(c, ops[0]);
      StepTracks(c, ops[0], n, w, ats[0], ats[1]);
      StepOpen(c, ops[0], n, w, ats[0], ats[1]);
      RunOpens(Step(c, ops[0]), ops[1..], n, w, ats[1..]);
    }
  }

  lemma InitialOpen(cfg: seq<StreamConfig>, opts: Options, n: nat, s: seq<Packet>, at: nat)
    requires n < |cfg|
    ensures OpenState(Initial(cfg, opts), n, s, at) && Initial(cfg, opts).cfg == cfg
  {
    NewRangeOpen(cfg, n, s);
  }

  // --- What a seek finds ---

  // The run at t starts early enough, or the stream has no run before it.
  ghost predicate EarlyOrFirst(q: Queue, t: nat, limit: real, s: seq<Packet>) {
    && Candidate(q.pkts, t)
    && (RunMin(q.pkts, t) <= limit || exists lo: nat :: OpensAt(q, s, lo) && NoCandidate(s, 0, lo + t))
  }

  ghost predicate ReadsFrom(q: Queue, reader: Option<nat>, limit: real, s: seq<Packet>) {
    reader.Some? && q.Has(reader.value) && EarlyOrFirst(q, reader.value - q.base, limit, s)
  }

  lemma TargetIsEarlyOrFirst(r: Range, n: nat, cfg: StreamConfig, pts: real, s: seq<Packet>)
    requires OpenRange(r, n, s) && Window(r.queues[n], s) && r.seekStart != NOPTS
    requires var q := r.queues[n]; QueueOk(q, cfg) && SeekableQueue(q, cfg)
    ensures var t := QueueTarget(r.queues[n], cfg, pts, false);
            && t.Some? && t.value < |r.queues[n].pkts|
            && EarlyOrFirst(r.queues[n], t.value, Max(pts, r.seekStart) - cfg.preroll, s)
  {
    hide QueueOk, RunMin, QueueTarget, NonDecreasing, NoCandidate;
    var q := r.queues[n];
    if Late(q, r.seekStart) {
      QueueSeekIsSound(q, cfg, pts, Max(pts, q.seekStart));
      var t := QueueTarget(q, cfg, pts, false).value;
      if RunMin(q.pkts, t) > pts - cfg.preroll {
        var hi := WindowHi(q, s);
        assert OpensAt(q, s, hi - |q.pkts|) by { LateOpens(q, r.seekStart, s, hi); }
        FirstRunOfStream(s, hi - |q.pkts|, hi, t);
      }
    } else {
      QueueSeekIsSound(q, cfg, pts, Max(pts, r.seekStart));
    }
  }

  lemma LateOpens(q: Queue, start: real, s: seq<Packet>, hi: nat)
    requires OpenQueue(q, start, s) && Late(q, start) && WindowAt(q, s, hi)
    ensures |q.pkts| <= hi && OpensAt(q, s, hi - |q.pkts|)
  {
  }

  // A backward seek in the cache: the reader of stream n goes to a run that starts
  // no later than the position or the start of the range (less the preroll), or
  // to the first run of the stream.
  lemma CacheSeekIsEarlyOrFirst(c: State, i: nat, to: SeekPoint, hr: bool, n: nat, s: seq<Packet>, at: nat)
    requires CacheOk(c) && c.Shape() && i < |c.ranges| && n < |c.cfg| && OpenState(c, n, s, at) && Tracks(c, n, s, at)
    requires c.ranges[i].seekStart != NOPTS && !to.forward && SeekableQueue(c.ranges[i].queues[n], c.cfg[n])
    ensures var c', r := CacheSeek(c, i, to, hr), c.ranges[i];
            var to' := if hr then to else AdjustTarget(r, c.cfg, to, 0);
            && |c'.ranges| > 0 && c'.ranges[|c'.ranges| - 1] == r && n < |c'.streams|
            && ReadsFrom(r.queues[n], c'.streams[n].readerHead, Max(to'.pts, r.seekStart) - c.cfg[n].preroll, s)
  {
    hide QueueOk, CacheSeek, AdjustTarget, SeekableQueue, EarlyOrFirst, QueueTarget, OpenRange, Window, InSync;
    var r := c.ranges[i];
    assert RangeOk(r, c.cfg) && QueueOk(r.queues[n], c.cfg[n]) && OpenRange(r, n, s) && Window(r.queues[n], s);
    var to' := if hr then to else AdjustTarget(r, c.cfg, to, 0);
    AdjustedIsBackward(r, c.cfg, to, 0);
    TargetIsEarlyOrFirst(r, n, c.cfg[n], to'.pts, s);
    SeekGoesTo(c, i, to, hr, n);
  }

  // A backward seek to a position, as the player asks for it. If it is done in the
  // cache, it is right for the position: the range that is found begins at or before
  // it, unless that is at the beginning of the file.
  lemma QueueSeekIsEarlyOrFirst(c: State, to: SeekPoint, cached: bool, seekable: bool, n: nat, s: seq<Packet>, at: nat)
    requires CacheOk(c) && c.Shape() && n < |c.cfg| && OpenState(c, n, s, at) && Tracks(c, n, s, at)
    requires c.opts.seekableCache && to.pts != NOPTS && !to.forward
    requires var k := FindCacheRange(c, to.pts, 0); k < |c.ranges| && SeekableQueue(c.ranges[k].queues[n], c.cfg[n])
    ensures var c', r := QueueSeek(c, to, true, cached, seekable), c.ranges[FindCacheRange(c, to.pts, 0)];
            && |c'.ranges| > 0 && c'.ranges[|c'.ranges| - 1] == r && n < |c'.streams|
            && ReadsFrom(r.queues[n], c'.streams[n].readerHead,
                         (if r.isBof then Max(to.pts, r.seekStart) else to.pts) - c.cfg[n].preroll, s)
  {
    hide QueueOk, CacheSeek, SeekableQueue, EarlyOrFirst, QueueTarget, OpenRange, Window, InSync;
    var k := FindCacheRange(c, to.pts, 0);
    var r := c.ranges[k];
    FoundIsFirst(c, to.pts, 0);
    assert RangeOk(r, c.cfg) && QueueOk(r.queues[n], c.cfg[n]) && OpenRange(r, n, s) && Window(r.queues[n], s);
    TargetIsEarlyOrFirst(r, n, c.cfg[n], to.pts, s);
    SeekGoesTo(ClearReaders(c), k, to, true, n);
  }

  lemma {:induction false} AdjustedIsBackward(r: Range, cfg: seq<StreamConfig>, to: SeekPoint, n: nat)
    requires n <= |r.queues| == |cfg| && !to.forward
    ensures !AdjustTarget(r, cfg, to, n).forward
    decreases |cfg| - n
  {
    if n < |cfg| {
      AdjustedIsBackward(r, cfg, to, n + 1);
    }
  }

  // The position that the other streams go to is that of the video stream, which
  // is early enough, or that of its first run.
  lemma AdjustedIsEarlyOrFirst(r: Range, cfg: seq<StreamConfig>, to: SeekPoint, s: seq<Packet>)
    requires RangeOk(r, cfg) && r.seekStart != NOPTS && !to.forward
    requires var v := VideoStream(cfg, 0); v < |cfg| && OpenRange(r, v, s) && Window(r.queues[v], s) && SeekableQueue(r.queues[v], cfg[v])
    ensures var v, to' := VideoStream(cfg, 0), AdjustTarget(r, cfg, to, 0);
            exists t: nat :: EarlyOrFirst(r.queues[v], t, Max(to.pts, r.seekStart) - cfg[v].preroll, s)
                             && to'.pts == RunMin(r.queues[v].pkts, t)
  {
    hide QueueOk, RunMin, QueueTarget, SeekableQueue, OpenRange, Window;
    var v := VideoStream(cfg, 0);
    AdjustTargetIs(r, cfg, to, 0);
    assert QueueOk(r.queues[v], cfg[v]);
    TargetIsEarlyOrFirst(r, v, cfg[v], to.pts, s);
  }

  // After every run from the initial state in which what is said to begin the
  // file does, all backward seeks in the cache are right for the stream.
  lemma RunSeekIsEarlyOrFirst(cfg: seq<StreamConfig>, opts: Options, ops: seq<Op>, n: nat, w: seq<Packet>, ats: seq<nat>,
                              i: nat, to: SeekPoint, hr: bool)
    requires n < |cfg| && Counts(cfg[n]) && Ordered(w) && |ats| > 0 && !to.forward
    requires Follows(Initial(cfg, opts), ops, n, w, ats)
    requires RunBegins(Initial(cfg, opts), ops, n, StoredAll(w, cfg[n]), ats)
    requires var c := Run(Initial(cfg, opts), ops);
             && i < |c.ranges| && n < |c.ranges[i].queues|
             && c.ranges[i].seekStart != NOPTS && SeekableQueue(c.ranges[i].queues[n], cfg[n])
    ensures var c := Run(Initial(cfg, opts), ops);
            && c.Shape()
            && var c', r := CacheSeek(c, i, to, hr), c.ranges[i];
               var to' := if hr then to else AdjustTarget(r, c.cfg, to, 0);
               && n < |c'.streams|
               && ReadsFrom(r.queues[n], c'.streams[n].readerHead, Max(to'.pts, r.seekStart) - c.cfg[n].preroll, StoredAll(w, cfg[n]))
  {
    hide CacheOk, OpenState, CacheSeek, ReadsFrom, SeekableQueue, Initial, Follows, RunBegins, AdjustTarget, Tracks, Ordered;
    var s := StoredAll(w, cfg[n]);
    InitialOk(cfg, opts);
    InitialOpen(cfg, opts, n, s, ats[0]);
    RunKeepsCache(Initial(cfg, opts), ops);
    RunOpens(Initial(cfg, opts), ops, n, w, ats);
    RunKeepsWindows(Initial(cfg, opts), ops, n, w, ats);
    CacheSeekIsEarlyOrFirst(Run(Initial(cfg, opts), ops), i, to, hr, n, s, ats[|ats| - 1]);
  }
}
