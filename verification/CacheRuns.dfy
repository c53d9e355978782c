// Whole runs of the demuxer on the packet cache, against the packet streams it
// demuxes.
//
// The demuxer implementation is a fixed list of packets per stream, and a
// position in each list. It delivers packets in order, in any interleaving of
// the streams; a low-level seek moves the positions.

module CacheRuns {
  import opened Timestamps
  import opened Wrappers
  import opened Packets
  import opened RingIndex
  import opened SeekTarget
  import opened Queues
  import opened Ranges
  import opened Cache
  import opened CacheInvariants
  import opened Pruning

  // --- Windows of a stream ---

  ghost predicate ByDts(w: seq<Packet>) {
    && (forall i :: 0 <= i < |w| ==> w[i].dts > NOPTS)
    && (forall i, j :: 0 <= i < j < |w| ==> w[i].dts < w[j].dts)
  }

  ghost predicate ByPos(w: seq<Packet>) {
    && (forall i :: 0 <= i < |w| ==> w[i].pos >= 0)
    && (forall i, j :: 0 <= i < j < |w| ==> w[i].pos < w[j].pos)
  }

  // A stream the demuxer can be repositioned in: packets are told apart by dts or
  // by file position, which increase. The others may be missing, or out of order.
  ghost predicate Ordered(w: seq<Packet>) {
    (forall i :: 0 <= i < |w| ==> w[i].len > 0 && w[i].dts >= NOPTS) && (ByDts(w) || ByPos(w))
  }

  // A stream in which each of them increases or is missing.
  ghost predicate Regular(w: seq<Packet>) {
    && Ordered(w)
    && (ByDts(w) || forall i :: 0 <= i < |w| ==> w[i].dts == NOPTS)
    && (ByPos(w) || forall i :: 0 <= i < |w| ==> w[i].pos < 0)
  }

  // The packets as they are kept in the queue.
  function StoredAll(w: seq<Packet>, cfg: StreamConfig): (s: seq<Packet>)
    ensures |s| == |w|
    ensures forall i :: 0 <= i < |w| ==> s[i] == Stored(w[i], cfg)
  {
    seq(|w|, i requires 0 <= i < |w| => Stored(w[i], cfg))
  }

  // The queue holds the last packets before position hi of the stream.
  ghost predicate WindowAt(q: Queue, s: seq<Packet>, hi: nat) {
    && 0 < hi <= |s| && |q.pkts| <= hi
    && q.pkts == s[hi - |q.pkts|..hi]
    && q.lastDts == s[hi - 1].dts && q.lastPos == s[hi - 1].pos
  }

  ghost predicate Untouched(q: Queue) {
    q.pkts == [] && q.lastDts == NOPTS && q.lastPos == -1
  }

  // The queue knows what increases.
  ghost predicate Knows(q: Queue, s: seq<Packet>) {
    && (ByDts(s) ==> q.correctDts) && (ByPos(s) ==> q.correctPos)
    && (q.correctDts ==> DtsRise(q)) && (q.correctPos ==> PosRise(q))
  }

  ghost predicate DtsRise(q: Queue) {
    && (Untouched(q) || q.lastDts > NOPTS)
    && forall i, j :: 0 <= i < j < |q.pkts| ==> q.pkts[i].dts < q.pkts[j].dts
  }

  ghost predicate PosRise(q: Queue) {
    && (Untouched(q) || q.lastPos >= 0)
    && forall i, j :: 0 <= i < j < |q.pkts| ==> q.pkts[i].pos < q.pkts[j].pos
  }

  // No packet is missing or doubled.
  ghost predicate Window(q: Queue, s: seq<Packet>) {
    Knows(q, s) && (Untouched(q) || exists hi: nat :: WindowAt(q, s, hi))
  }

  // What comes before the last packet can be told from what comes after it. The dts
  // are compared if those of the queue increase, even if others in the stream do not.
  ghost predicate Replays(q: Queue, s: seq<Packet>, at: nat, hi: nat) {
    q.correctDts ==> forall i :: at <= i < hi - 1 && i < |s| ==> s[i].dts < q.lastDts
  }

  // The demuxer goes on where the queue ends, or before that while it is
  // looking for the place again.
  ghost predicate InSync(q: Queue, s: Stream, w: seq<Packet>, at: nat) {
    forall hi: nat :: WindowAt(q, w, hi) ==> if s.refreshing then at < hi && Replays(q, w, at, hi) else at == hi
  }

  lemma WindowUnique(q: Queue, s: seq<Packet>, hi: nat, hi': nat)
    requires Ordered(s) && WindowAt(q, s, hi) && WindowAt(q, s, hi')
    ensures hi == hi'
  {
    SamePosition(s, hi - 1, hi' - 1);
  }

  lemma SamePosition(s: seq<Packet>, i: nat, j: nat)
    requires Ordered(s) && i < |s| && j < |s| && s[i].dts == s[j].dts && s[i].pos == s[j].pos
    ensures i == j
  {
  }

  lemma StoredOrdered(w: seq<Packet>, cfg: StreamConfig)
    requires Ordered(w)
    ensures Ordered(StoredAll(w, cfg))
    ensures ByDts(StoredAll(w, cfg)) == ByDts(w) && ByPos(StoredAll(w, cfg)) == ByPos(w)
  {
    var s := StoredAll(w, cfg);
    assert forall i :: 0 <= i < |w| ==> s[i].dts == w[i].dts && s[i].pos == w[i].pos;
  }

  // --- What primitive operations do to windows ---

  lemma RemoveHeadWindow(q: Queue, s: seq<Packet>)
    requires Window(q, s) && |q.pkts| > 0 && |q.cum| == |q.pkts|
    ensures Window(RemoveHead(q), s)
    ensures forall hi: nat :: WindowAt(RemoveHead(q), s, hi) && Ordered(s) ==> WindowAt(q, s, hi)
  {
    var hi: nat :| WindowAt(q, s, hi);
    assert WindowAt(RemoveHead(q), s, hi);
    forall hi': nat | WindowAt(RemoveHead(q), s, hi') && Ordered(s)
      ensures hi' == hi
    {
      WindowUnique(RemoveHead(q), s, hi, hi');
    }
  }

  // Only the list and what is known of the last packet matter.
  ghost predicate SameWindow(q: Queue, r: Queue) {
    && r.pkts == q.pkts && r.lastDts == q.lastDts && r.lastPos == q.lastPos
    && r.correctDts == q.correctDts && r.correctPos == q.correctPos
  }

  lemma SameWindowKeeps(q: Queue, r: Queue, s: seq<Packet>)
    requires SameWindow(q, r)
    ensures Window(q, s) ==> Window(r, s)
    ensures forall hi: nat :: WindowAt(q, s, hi) == WindowAt(r, s, hi)
  {
    if Window(q, s) && !Untouched(q) {
      var hi: nat :| WindowAt(q, s, hi);
      assert WindowAt(r, s, hi);
    }
  }

  lemma AppendRises(q: Queue, p: Packet)
    requires (q.correctDts ==> DtsRise(q)) && (q.correctPos ==> PosRise(q)) && p.dts >= NOPTS
    requires q.pkts != [] ==> q.pkts[|q.pkts| - 1].dts == q.lastDts && q.pkts[|q.pkts| - 1].pos == q.lastPos
    ensures var r := Append(q, p); (r.correctDts ==> DtsRise(r)) && (r.correctPos ==> PosRise(r))
  {
    var n, r := |q.pkts|, Append(q, p);
    assert forall i :: 0 <= i < n ==> r.pkts[i] == q.pkts[i];
    assert r.pkts[n] == p;
  }

  lemma AppendWindow(q: Queue, s: seq<Packet>, at: nat)
    requires Ordered(s) && Window(q, s) && at < |s|
    requires forall hi: nat :: WindowAt(q, s, hi) ==> at == hi
    ensures Window(Append(q, s[at]), s) && WindowAt(Append(q, s[at]), s, at + 1)
  {
    hide DtsRise, PosRise;
    var r := Append(q, s[at]);
    AppendRises(q, s[at]);
    if Untouched(q) {
      assert r.pkts == s[at..at + 1];
    } else {
      assert WindowAt(q, s, at);
      assert ByDts(s) ==> s[at - 1].dts < s[at].dts;
      assert ByPos(s) ==> s[at - 1].pos < s[at].pos;
      assert r.pkts == s[at - |q.pkts|..at + 1];
    }
    assert WindowAt(r, s, at + 1);
  }

  // Trimming stops exactly behind the packet the current range ends with.
  lemma {:induction false} TrimToJoinWindow(q: Queue, s: seq<Packet>, end: Packet, hi1: nat, st: Stream)
    requires Ordered(s) && Window(q, s) && |q.cum| == |q.pkts|
    requires 0 < hi1 <= |s| && end == s[hi1 - 1]
    ensures var t := TrimToJoin(q, end, st);
            t.Joinable? ==>
              && Window(t.q, s) && t.q.lastDts == q.lastDts && t.q.lastPos == q.lastPos
              && t.q.correctDts == q.correctDts && t.q.correctPos == q.correctPos
              && (q.correctDts && t.q.pkts != [] ==> end.dts < t.q.pkts[0].dts)
              && (q.correctPos && t.q.pkts != [] ==> end.pos < t.q.pkts[0].pos)
              && exists hi: nat :: Continues(t.q, s, hi1, hi)
    decreases |q.pkts|
  {
    if |q.pkts| > 0 {
      RemoveHeadWindow(q, s);
      var p := q.pkts[0];
      if q.kfLatest == Some(q.base) {
      } else if SamePacket(st, p, end) {
        if p.dts == end.dts && p.pos == end.pos {
          MatchIsSame(q, s, hi1);
        }
      } else if !PastPacket(st, p, end) {
        TrimToJoinWindow(RemoveHead(q), s, end, hi1, st);
      }
    }
  }

  // The queue has what is between two places.
  ghost predicate Continues(q: Queue, s: seq<Packet>, lo: nat, hi: nat) {
    WindowAt(q, s, hi) && lo <= hi <= |s| && q.pkts == s[lo..hi]
  }

  lemma MatchIsSame(q: Queue, s: seq<Packet>, hi1: nat)
    requires Ordered(s) && Window(q, s) && |q.pkts| > 0 && |q.cum| == |q.pkts|
    requires 0 < hi1 <= |s| && q.pkts[0].dts == s[hi1 - 1].dts && q.pkts[0].pos == s[hi1 - 1].pos
    ensures exists hi: nat :: Continues(RemoveHead(q), s, hi1, hi)
  {
    var hi: nat :| WindowAt(q, s, hi);
    var lo := hi - |q.pkts|;
    assert q.pkts[0] == s[lo];
    SamePosition(s, lo, hi1 - 1);
    assert Continues(RemoveHead(q), s, hi1, hi);
  }

  lemma JoinedPackets(q1: Queue, q2: Queue)
    ensures var r := Join(q1, q2);
            && r.pkts == q1.pkts + q2.pkts && r.lastDts == q2.lastDts && r.lastPos == q2.lastPos
            && r.correctDts == (q1.correctDts && q2.correctDts)
            && r.correctPos == (q1.correctPos && q2.correctPos)
  {
  }

  // The queues of an eager stream join without a gap or a repetition.
  lemma WindowHi(q: Queue, s: seq<Packet>) returns (hi: nat)
    requires Window(q, s) && |q.pkts| > 0
    ensures WindowAt(q, s, hi) && Knows(q, s) && hi <= |s|
  {
    hi :| WindowAt(q, s, hi);
  }

  lemma WindowFrom(q: Queue, s: seq<Packet>, hi: nat)
    requires WindowAt(q, s, hi) && Knows(q, s)
    ensures Window(q, s)
  {
  }

  lemma WindowsMeet(q: Queue, t: Queue, r: Queue, s: seq<Packet>, lo: nat, hi: nat)
    requires WindowAt(q, s, lo) && WindowAt(t, s, hi) && lo <= hi && t.pkts == s[lo..hi]
    requires r.pkts == q.pkts + t.pkts && r.lastDts == t.lastDts && r.lastPos == t.lastPos
    ensures WindowAt(r, s, hi)
  {
    assert r.pkts == s[lo - |q.pkts|..hi];
  }

  lemma DtsRiseOn(q: Queue, t: Queue, r: Queue, s: seq<Packet>, hi: nat)
    requires DtsRise(q) && DtsRise(t) && Ordered(s) && WindowAt(t, s, hi)
    requires q.pkts != [] && (t.pkts != [] ==> q.pkts[|q.pkts| - 1].dts < t.pkts[0].dts)
    requires r.pkts == q.pkts + t.pkts && r.lastDts == t.lastDts
    ensures DtsRise(r)
  {
    assert !Untouched(t);
    var n := |q.pkts|;
    forall i, j | 0 <= i < j < |r.pkts|
      ensures r.pkts[i].dts < r.pkts[j].dts
    {
      assert i < n ==> r.pkts[i] == q.pkts[i] && r.pkts[i].dts <= q.pkts[n - 1].dts;
      assert i >= n ==> r.pkts[i] == t.pkts[i - n];
      assert j < n ==> r.pkts[j] == q.pkts[j];
      assert j >= n ==> r.pkts[j] == t.pkts[j - n] && t.pkts[0].dts <= r.pkts[j].dts;
    }
  }

  lemma PosRiseOn(q: Queue, t: Queue, r: Queue, s: seq<Packet>, hi: nat)
    requires PosRise(q) && PosRise(t) && Ordered(s) && WindowAt(t, s, hi)
    requires q.pkts != [] && (t.pkts != [] ==> q.pkts[|q.pkts| - 1].pos < t.pkts[0].pos)
    requires r.pkts == q.pkts + t.pkts && r.lastPos == t.lastPos
    ensures PosRise(r)
  {
    assert !Untouched(t);
    var n := |q.pkts|;
    forall i, j | 0 <= i < j < |r.pkts|
      ensures r.pkts[i].pos < r.pkts[j].pos
    {
      assert i < n ==> r.pkts[i] == q.pkts[i] && r.pkts[i].pos <= q.pkts[n - 1].pos;
      assert i >= n ==> r.pkts[i] == t.pkts[i - n];
      assert j < n ==> r.pkts[j] == q.pkts[j];
      assert j >= n ==> r.pkts[j] == t.pkts[j - n] && t.pkts[0].pos <= r.pkts[j].pos;
    }
  }

  lemma JoinWindow(q1: Queue, q2: Queue, s: seq<Packet>, cfg: StreamConfig, st: Stream)
    requires Ordered(s) && Window(q1, s) && Window(q2, s) && cfg.eager && |q2.cum| == |q2.pkts|
    requires TrimStream(q1, q2, cfg, st).Joinable?
    ensures Window(Join(q1, TrimStream(q1, q2, cfg, st).q), s)
  {
    hide SamePacket, PastPacket, TrimToJoin, Join, Ordered, WindowAt, DtsRise, PosRise;
    var t := TrimStream(q1, q2, cfg, st).q;
    var r := Join(q1, t);
    JoinedPackets(q1, t);
    if |q1.pkts| == 0 {
      assert r.pkts == q2.pkts;
      SamePackets(q2, r, s);
    } else {
      var hi1 := WindowHi(q1, s);
      TrimToJoinWindow(q2, s, q1.pkts[|q1.pkts| - 1], hi1, st);
      var hi: nat :| Continues(t, s, hi1, hi);
      WindowsMeet(q1, t, r, s, hi1, hi);
      assert Knows(r, s) by {
        if r.correctDts {
          DtsRiseOn(q1, t, r, s, hi);
        }
        if r.correctPos {
          PosRiseOn(q1, t, r, s, hi);
        }
      }
      WindowFrom(r, s, hi);
    }
  }

  // Windows depend on the packets, and on the last one there was.
  lemma SamePackets(q: Queue, r: Queue, s: seq<Packet>)
    requires r.pkts == q.pkts && r.lastDts == q.lastDts && r.lastPos == q.lastPos
    ensures forall hi: nat :: WindowAt(q, s, hi) == WindowAt(r, s, hi)
    ensures DtsRise(q) == DtsRise(r) && PosRise(q) == PosRise(r)
    ensures Window(q, s) && Knows(r, s) ==> Window(r, s)
  {
    if Window(q, s) && Knows(r, s) && !Untouched(q) {
      var hi: nat :| WindowAt(q, s, hi);
      assert WindowAt(r, s, hi);
    }
  }

  // --- One stream of the cache ---

  ghost predicate Windows(rs: seq<Range>, n: nat, s: seq<Packet>) {
    forall r :: 0 <= r < |rs| ==> n < |rs[r].queues| && Window(rs[r].queues[n], s)
  }

  // All queues of stream n hold windows of s, and the demuxer's position `at`
  // in s is in sync with the current one. While a low-level seek is pending,
  // what it delivers is dropped, and the seek will have to restore the sync.
  ghost predicate Tracks(c: State, n: nat, s: seq<Packet>, at: nat) {
    && |c.ranges| > 0 && n < |c.streams| && Windows(c.ranges, n, s)
    && var q := c.ranges[|c.ranges| - 1].queues[n];
    && (!c.seeking ==> InSync(q, c.streams[n], s, at))
    && (c.seeking ==> c.streams[n].refreshing || Untouched(q))
  }

  // r came out of q without new packets.
  ghost predicate Narrows(q: Queue, r: Queue, s: seq<Packet>) {
    && (Window(q, s) ==> Window(r, s))
    && (forall hi: nat :: WindowAt(r, s, hi) ==> (WindowAt(q, s, hi) && r.correctDts == q.correctDts) || !Window(q, s))
    && (Untouched(q) ==> Untouched(r))
  }

  lemma NarrowsTrans(q: Queue, r: Queue, t: Queue, s: seq<Packet>)
    requires Narrows(q, r, s) && Narrows(r, t, s)
    ensures Narrows(q, t, s)
  {
    hide Window, WindowAt;
  }

  lemma SameNarrows(q: Queue, r: Queue, s: seq<Packet>)
    requires SameWindow(q, r)
    ensures Narrows(q, r, s)
  {
    SameWindowKeeps(q, r, s);
  }

  lemma RemoveHeadNarrows(q: Queue, s: seq<Packet>)
    requires Ordered(s) && |q.pkts| > 0 && |q.cum| == |q.pkts|
    ensures Narrows(q, RemoveHead(q), s)
  {
    if Window(q, s) {
      RemoveHeadWindow(q, s);
    }
  }

  lemma ClearNarrows(q: Queue, s: seq<Packet>)
    requires Ordered(s)
    ensures Narrows(q, Clear(q), s) && Window(Clear(q), s) && Untouched(Clear(q))
  {
  }

  lemma {:induction false} TrimNarrows(q: Queue, s: seq<Packet>)
    requires Ordered(s) && |q.cum| == |q.pkts|
    ensures Narrows(q, TrimNonKeyframes(q), s)
    decreases |q.pkts|
  {
    hide Narrows;
    if |q.pkts| > 0 && !q.pkts[0].keyframe {
      RemoveHeadNarrows(q, s);
      TrimNarrows(RemoveHead(q), s);
      NarrowsTrans(q, RemoveHead(q), TrimNonKeyframes(q), s);
    } else {
      SameNarrows(q, q, s);
    }
  }

  lemma {:induction false} PruneRunNarrows(q: Queue, reader: Option<nat>, seekable: bool, nonKf: bool, kf: bool, s: seq<Packet>)
    requires Ordered(s) && |q.cum| == |q.pkts|
    ensures Narrows(q, PruneRun(q, reader, seekable, nonKf, kf).q, s)
    decreases |q.pkts|
  {
    hide Narrows;
    if Prunable(q, reader) && !(q.pkts[0].keyframe && (kf || nonKf) && seekable) {
      RemoveHeadNarrows(q, s);
      PruneRunNarrows(RemoveHead(q), reader, seekable, nonKf, kf || q.pkts[0].keyframe, s);
      NarrowsTrans(q, RemoveHead(q), PruneRun(q, reader, seekable, nonKf, kf).q, s);
    } else {
      SameNarrows(q, q, s);
    }
  }

  lemma PruneQueueNarrows(q: Queue, reader: Option<nat>, seekable: bool, preroll: real, s: seq<Packet>)
    requires Ordered(s) && |q.cum| == |q.pkts|
    ensures Narrows(q, PruneQueue(q, reader, seekable, preroll).q, s)
  {
    hide Narrows, PruneRun, RunMin;
    var nonKf := |q.pkts| > 0 && !q.pkts[0].keyframe;
    var p := PruneRun(q, reader, seekable, nonKf, false);
    PruneRunNarrows(q, reader, seekable, nonKf, false, s);
    if p.kfPruned {
      SameNarrows(p.q, Restart(p.q, preroll), s);
      NarrowsTrans(q, p.q, Restart(p.q, preroll), s);
    }
  }

  // --- Every operation keeps track of the stream ---

  lemma WindowsMember(rs: seq<Range>, n: nat, s: seq<Packet>, r: Range)
    requires Windows(rs, n, s) && r in rs
    ensures n < |r.queues| && Window(r.queues[n], s)
  {
  }

  lemma FreeEmptyWindows(rs: seq<Range>, n: nat, s: seq<Packet>, seekable: bool)
    requires |rs| > 0 && Windows(rs, n, s)
    ensures Windows(FreeEmpty(rs, seekable), n, s)
    ensures |FreeEmpty(rs, seekable)| > 0 && FreeEmpty(rs, seekable)[|FreeEmpty(rs, seekable)| - 1] == rs[|rs| - 1]
  {
    hide Window;
    EvictionOutcome(rs, seekable);
    var e := FreeEmpty(rs, seekable);
    SubsequenceMembers(e[..|e| - 1], rs[..|rs| - 1]);
    forall r | 0 <= r < |e|
      ensures n < |e[r].queues| && Window(e[r].queues[n], s)
    {
      if r < |e| - 1 {
        assert e[r] in e[..|e| - 1];
        WindowsMember(rs, n, s, e[r]);
      }
    }
  }

  // Replacing a range by one whose queue n is no wider.
  lemma NarrowerRangeTracks(c: State, i: nat, r: Range, n: nat, s: seq<Packet>, at: nat)
    requires Tracks(c, n, s, at) && i < |c.ranges| && n < |r.queues|
    requires Narrows(c.ranges[i].queues[n], r.queues[n], s)
    ensures Tracks(WithRange(c, i, r), n, s, at)
  {
    hide Window, WindowAt, Untouched, InSync, Narrows;
    assert Window(c.ranges[i].queues[n], s);
    NarrowSync(c.ranges[i].queues[n], r.queues[n], c.streams[n], s, at);
  }

  lemma NarrowSync(q: Queue, r: Queue, st: Stream, s: seq<Packet>, at: nat)
    requires Narrows(q, r, s) && Window(q, s)
    ensures Window(r, s) && (Untouched(q) ==> Untouched(r)) && (InSync(q, st, s, at) ==> InSync(r, st, s, at))
  {
    hide Window, Untouched;
  }

  lemma FreeEmptyTracks(c: State, n: nat, s: seq<Packet>, at: nat)
    requires Tracks(c, n, s, at)
    ensures Tracks(FreeEmptyRanges(c), n, s, at)
  {
    hide Window, WindowAt, Untouched;
    FreeEmptyWindows(c.ranges, n, s, c.opts.seekableCache);
  }

  lemma DiscardTracks(c: State, i: nat, n: nat, s: seq<Packet>, at: nat)
    requires Tracks(c, n, s, at) && Ordered(s) && i < |c.ranges| && |c.ranges[i].queues| == |c.cfg|
    ensures Tracks(FreeEmptyRanges(WithRange(c, i, ClearRange(c.ranges[i], c.cfg))), n, s, at)
  {
    hide Narrows, FreeEmptyRanges;
    ClearedHasNoSpan(c.ranges[i], c.cfg);
    assert n < |c.ranges[i].queues|;
    ClearNarrows(c.ranges[i].queues[n], s);
    NarrowerRangeTracks(c, i, ClearRange(c.ranges[i], c.cfg), n, s, at);
    FreeEmptyTracks(WithRange(c, i, ClearRange(c.ranges[i], c.cfg)), n, s, at);
  }

  lemma {:induction false} TrimAllAt(qs1: seq<Queue>, qs2: seq<Queue>, cfg: seq<StreamConfig>, ss: seq<Stream>, n: nat, i: nat)
    requires i < n <= |qs1| == |qs2| == |cfg| == |ss|
    requires forall k :: 0 <= k < n ==> |qs2[k].cum| == |qs2[k].pkts|
    requires TrimAll(qs1, qs2, cfg, ss, n).Some?
    ensures |TrimAll(qs1, qs2, cfg, ss, n).value| == n
    ensures TrimStream(qs1[i], qs2[i], cfg[i], ss[i]) == Joinable(TrimAll(qs1, qs2, cfg, ss, n).value[i])
  {
    hide TrimStream;
    if i < n - 1 {
      TrimAllAt(qs1, qs2, cfg, ss, n - 1, i);
    } else if n > 1 {
      TrimAllAt(qs1, qs2, cfg, ss, n - 1, 0);
    }
  }

  // The range that the current one will be joined with.
  function JoinsWith(c: State): (i: Option<nat>)
    requires c.Shape()
    ensures i.Some? ==> i.value < c.Last()
  {
    var next := ChooseNext(c.ranges, c.Last());
    if next.Some? && next.value < c.Last()
       && TrimAll(c.ranges[c.Last()].queues, c.ranges[next.value].queues, c.cfg, c.streams, |c.cfg|).Some?
    then next else None
  }

  lemma JoinWithTracks(c: State, i: nat, qs2: seq<Queue>, n: nat, s: seq<Packet>, at: nat)
    requires Tracks(c, n, s, at) && c.Shape() && i < c.Last() && |qs2| == |c.cfg| && c.cfg[n].selected
    requires Window(Join(c.ranges[c.Last()].queues[n], qs2[n]), s)
    ensures Tracks(JoinWith(c, i, qs2), n, s, at)
  {
    hide Window, WindowAt, Untouched, UpdateSeekRanges, Join;
    var cur := c.ranges[c.Last()];
    UpdatedSpan(cur.(queues := JoinAll(cur.queues, qs2)), c.cfg);
  }

  lemma AttemptJoinTracks(c: State, n: nat, s: seq<Packet>, at: nat)
    requires Tracks(c, n, s, at) && Ordered(s) && c.Shape() && n < |c.cfg| && Counts(c.cfg[n])
    ensures Tracks(AttemptJoin(c), n, s, at)
  {
    hide Tracks, JoinWith, TrimStream, Join, FreeEmptyRanges;
    NextIsNotCurrent(c.ranges, c.Last());
    var next := ChooseNext(c.ranges, c.Last());
    if next.Some? {
      var i, cur := next.value, c.ranges[c.Last()];
      var qs2 := TrimAll(cur.queues, c.ranges[i].queues, c.cfg, c.streams, |c.cfg|);
      if qs2.Some? {
        TrimAllAt(cur.queues, c.ranges[i].queues, c.cfg, c.streams, |c.cfg|, n);
        TracksWindows(c, n, s, at, i);
        JoinWindow(cur.queues[n], c.ranges[i].queues[n], s, c.cfg[n], c.streams[n]);
        JoinWithTracks(c, i, qs2.value, n, s, at);
        JoinWithKeeps(c, i, qs2.value);
        DiscardTracks(JoinWith(c, i, qs2.value), i, n, s, at);
      } else {
        DiscardTracks(c, i, n, s, at);
      }
    }
  }

  lemma TracksWindows(c: State, n: nat, s: seq<Packet>, at: nat, i: nat)
    requires Tracks(c, n, s, at) && c.Shape() && i < |c.ranges|
    ensures Window(c.ranges[i].queues[n], s) && Window(c.ranges[c.Last()].queues[n], s)
  {
  }

  lemma JoinWithKeeps(c: State, i: nat, qs2: seq<Queue>)
    requires c.Shape() && i < c.Last() && |qs2| == |c.cfg|
    ensures var j := JoinWith(c, i, qs2);
            |j.ranges| == |c.ranges| && j.ranges[i] == c.ranges[i] && j.cfg == c.cfg && j.opts == c.opts
  {
  }

  lemma AdjustTracks(c: State, m: nat, dp: Option<nat>, n: nat, s: seq<Packet>, at: nat)
    requires Tracks(c, n, s, at) && Ordered(s) && c.Shape() && m < |c.cfg| && n < |c.cfg| && Counts(c.cfg[n])
    ensures Tracks(AdjustSeekRange(c, m, dp), n, s, at)
  {
    hide Narrows, Tracks, AttemptJoin, LatestMin, LatestMax, UpdateSeekRanges;
    if c.opts.seekableCache {
      var r := c.ranges[c.Last()];
      var q := r.queues[m];
      var r' := SetQueue(r, m, AdjustQueue(q, dp, c.cfg[m].preroll));
      SameNarrows(r.queues[n], r'.queues[n], s);
      NarrowerRangeTracks(c, c.Last(), r', n, s, at);
      var u := UpdateSeekRanges(r', c.cfg);
      UpdatedSpan(r', c.cfg);
      NarrowerRangeTracks(c, c.Last(), u, n, s, at);
      if NeedsUpdate(q, dp, r.seekEnd) && c.cfg[m].eager {
        AttemptJoinTracks(WithRange(c, c.Last(), u), n, s, at);
      }
    }
  }

  // The packet at the demuxer's position is appended.
  lemma AppendTracks(c: State, n: nat, w: seq<Packet>, at: nat)
    requires n < |c.cfg| && c.Shape() && at < |w|
    requires var s := StoredAll(w, c.cfg[n]);
             Tracks(c, n, s, at) && Ordered(s)
    requires !c.seeking && !c.streams[n].refreshing
    ensures Tracks(AppendPacket(c, n, w[at]), n, StoredAll(w, c.cfg[n]), at + 1)
  {
    hide Window, WindowAt, Append, Untouched;
    var s := StoredAll(w, c.cfg[n]);
    var q := c.ranges[c.Last()].queues[n];
    AppendWindow(q, s, at);
    var q' := Append(q, s[at]);
    forall hi: nat | WindowAt(q', s, hi)
      ensures hi == at + 1
    {
      WindowUnique(q', s, hi, at + 1);
    }
  }

  // ... or dropped, when looking for the end of the queue.
  lemma RefreshTracks(c: State, n: nat, w: seq<Packet>, at: nat)
    requires n < |c.cfg| && c.Shape() && at < |w|
    requires var s := StoredAll(w, c.cfg[n]);
             Tracks(c, n, s, at) && Ordered(s)
    requires !c.seeking && c.streams[n].refreshing
    ensures var st := c.streams[n].(refreshing := StillRefreshing(c.ranges[c.Last()].queues[n], w[at]));
            Tracks(WithStream(c, n, st), n, StoredAll(w, c.cfg[n]), at + 1)
  {
    var s := StoredAll(w, c.cfg[n]);
    var q := c.ranges[c.Last()].queues[n];
    assert Window(q, s);
    hide Window, Ordered;
    forall hi: nat | WindowAt(q, s, hi)
      ensures StillRefreshing(q, w[at]) <==> at + 1 < hi
      ensures at + 1 <= hi && Replays(q, s, at + 1, hi)
    {
      StillRefreshingIff(q, s, w[at], at, hi);
    }
  }

  // A replayed packet is taken for one before the last packet if and only if it is.
  lemma StillRefreshingIff(q: Queue, s: seq<Packet>, p: Packet, at: nat, hi: nat)
    requires Ordered(s) && Window(q, s) && WindowAt(q, s, hi) && at < hi && Replays(q, s, at, hi)
    requires p.dts == s[at].dts && p.pos == s[at].pos
    ensures StillRefreshing(q, p) <==> at + 1 < hi
  {
    if at + 1 < hi && !q.correctDts {
      assert ByPos(s) && s[at].pos < s[hi - 1].pos;
    }
  }

  // When that is: if the dts of the stream increase, or are missing, or if demuxing
  // goes on with a packet that the queue still has.
  lemma ReplayedFrom(q: Queue, s: seq<Packet>, at: nat, hi: nat)
    requires Ordered(s) && Window(q, s) && WindowAt(q, s, hi) && at < hi
    requires ByDts(s) || (forall i :: 0 <= i < |s| ==> s[i].dts == NOPTS) || hi - |q.pkts| <= at
    ensures Replays(q, s, at, hi)
  {
    hide Ordered, ByDts, ByPos, PosRise, Untouched;
    var lo := hi - |q.pkts|;
    assert !Untouched(q) by {
      if Untouched(q) {
        UntouchedHasNoWindow(q, s);
      }
    }
    if q.correctDts {
      assert DtsRise(q) && q.lastDts == s[hi - 1].dts > NOPTS;
      forall i | at <= i < hi - 1
        ensures s[i].dts < q.lastDts
      {
        if lo <= at {
          var k, n := i - lo, |q.pkts|;
          assert s[i] == q.pkts[k] && s[hi - 1] == q.pkts[n - 1] && k < n - 1;
        } else if ByDts(s) {
          LaterDts(s, i, hi - 1);
        }
      }
    }
  }

  lemma LaterDts(s: seq<Packet>, i: nat, j: nat)
    requires ByDts(s) && i < j < |s|
    ensures s[i].dts < s[j].dts
  {
  }

  // The packet with which looking for the end of the queue is over.
  function RefreshEnd(q: Queue, s: seq<Packet>, at: nat): (e: nat)
    requires at <= |s|
    ensures at <= e <= |s|
    ensures e < |s| ==> !StillRefreshing(q, s[e])
    ensures forall i :: at <= i < e ==> StillRefreshing(q, s[i])
    decreases |s| - at
  {
    if at == |s| || !StillRefreshing(q, s[at]) then at else RefreshEnd(q, s, at + 1)
  }

  // It is the last one of the queue, so that the next packet continues the queue, if
  // and only if the packets before can be told from it. If the queue compares
  // positions, or all dts of the stream increase, they always can.
  lemma RefreshEndsIff(q: Queue, s: seq<Packet>, at: nat, hi: nat)
    requires Ordered(s) && Window(q, s) && WindowAt(q, s, hi) && at < hi
    ensures RefreshEnd(q, s, at) == hi - 1 <==> Replays(q, s, at, hi)
    ensures !q.correctDts || ByDts(s) ==> Replays(q, s, at, hi)
  {
    hide Window, Ordered, RefreshEnd;
    var e := RefreshEnd(q, s, at);
    if Replays(q, s, at, hi) {
      forall i | at <= i < hi
        ensures StillRefreshing(q, s[i]) <==> i + 1 < hi
      {
        StillRefreshingIff(q, s, s[i], i, hi);
      }
    }
    if ByDts(s) {
      forall i | at <= i < hi - 1
        ensures s[i].dts < s[hi - 1].dts
      {
      }
    }
  }

  // A queue whose dts increase, of a stream in which they do not: the first packet
  // that is replayed ends the refresh, and the second one is appended again.
  lemma RefreshEndsEarly()
    ensures var p := Packet(5.0, 5.0, 0, true, 1, 1, false, NOPTS, NOPTS);
            var s := [p, p.(dts := 1.0, pos := 1), p.(dts := 2.0, pos := 2)];
            var q := Append(Append(NewQueue(), s[1]), s[2]);
            && Ordered(s) && Window(q, s) && WindowAt(q, s, 3)
            && RefreshEnd(q, s, 0) == 0 && Append(q, s[1]).pkts == [s[1], s[2], s[1]]
  {
    var p := Packet(5.0, 5.0, 0, true, 1, 1, false, NOPTS, NOPTS);
    var s := [p, p.(dts := 1.0, pos := 1), p.(dts := 2.0, pos := 2)];
    var q := Append(Append(NewQueue(), s[1]), s[2]);
    assert !ByDts(s) by {
      assert s[0].dts > s[1].dts;
    }
    assert WindowAt(q, s, 3);
  }

  lemma OtherAppendTracks(c: State, m: nat, p: Packet, n: nat, s: seq<Packet>, at: nat)
    requires Tracks(c, n, s, at) && c.Shape() && m < |c.cfg| && m != n
    ensures Tracks(AppendPacket(c, m, p), n, s, at)
  {
    hide Narrows;
    var r := c.ranges[c.Last()];
    var r' := SetQueue(r, m, Append(r.queues[m], Stored(p, c.cfg[m])));
    SameNarrows(r.queues[n], r'.queues[n], s);
    NarrowerRangeTracks(c, c.Last(), r', n, s, at);
  }

  lemma AddPacketTracks(c: State, n: nat, w: seq<Packet>, at: nat)
    requires n < |c.cfg| && Ordered(w) && at < |w| && c.Shape() && Counts(c.cfg[n])
    requires Tracks(c, n, StoredAll(w, c.cfg[n]), at)
    ensures Tracks(AddPacket(c, n, w[at]), n, StoredAll(w, c.cfg[n]), at + 1)
  {
    hide StillRefreshing, InSync, Windows, Untouched, AdjustSeekRange;
    var s := StoredAll(w, c.cfg[n]);
    StoredOrdered(w, c.cfg[n]);
    if c.seeking {
    } else if c.streams[n].refreshing {
      RefreshTracks(c, n, w, at);
    } else {
      AppendTracks(c, n, w, at);
      var c' := AppendPacket(c, n, w[at]);
      AppendShape(c, n, w[at]);
      AdjustTracks(c', n, Some(c.ranges[c.Last()].queues[n].End()), n, s, at + 1);
    }
  }

  lemma AppendShape(c: State, n: nat, p: Packet)
    requires c.Shape() && n < |c.cfg|
    ensures AppendPacket(c, n, p).Shape() && AppendPacket(c, n, p).cfg == c.cfg
  {
  }

  lemma OtherPacketTracks(c: State, m: nat, p: Packet, n: nat, s: seq<Packet>, at: nat)
    requires Tracks(c, n, s, at) && Ordered(s) && c.Shape() && m < |c.cfg| && m != n && n < |c.cfg| && Counts(c.cfg[n])
    ensures Tracks(AddPacket(c, m, p), n, s, at)
  {
    hide StillRefreshing, InSync, Windows, Untouched, AdjustSeekRange;
    if !(p.len == 0 || !c.cfg[m].selected || c.seeking) && !c.streams[m].refreshing {
      OtherAppendTracks(c, m, p, n, s, at);
      AppendShape(c, m, p);
      AdjustTracks(AppendPacket(c, m, p), m, Some(c.ranges[c.Last()].queues[m].End()), n, s, at);
    }
  }

  lemma MarkEofTracks(c: State, m: nat, n: nat, s: seq<Packet>, at: nat)
    requires Tracks(c, n, s, at) && Ordered(s) && c.Shape() && m < |c.cfg| && n < |c.cfg| && Counts(c.cfg[n])
    ensures Tracks(MarkEof(c, m), n, s, at)
  {
    hide InSync, Windows, Untouched, AdjustSeekRange;
    if !c.streams[m].eof {
      var c' := WithStream(c, m, c.streams[m].(eof := true));
      SameSyncTracks(c, c', n, s, at);
      AdjustTracks(c', m, None, n, s, at);
    }
  }

  // Only the refreshing flag of a stream matters.
  lemma SameSyncTracks(c: State, c': State, n: nat, s: seq<Packet>, at: nat)
    requires Tracks(c, n, s, at) && c'.ranges == c.ranges && c'.seeking == c.seeking
    requires n < |c'.streams| && c'.streams[n].refreshing == c.streams[n].refreshing
    ensures Tracks(c', n, s, at)
  {
    hide Window, WindowAt, Untouched;
  }

  lemma PruneStreamTracks(c: State, k: nat, n: nat, s: seq<Packet>, at: nat)
    requires Tracks(c, n, s, at) && Ordered(s) && c.Shape() && k < |c.cfg| && n < |c.cfg|
    ensures Tracks(PruneStream(c, k), n, s, at)
  {
    hide Narrows, Tracks, PruneQueue, FreeEmptyRanges, PrunedRange;
    var r := c.ranges[0];
    var p := PruneQueue(r.queues[k], ReaderIn(c, 0, k), c.opts.seekableCache, c.cfg[k].preroll);
    PruneQueueNarrows(r.queues[k], ReaderIn(c, 0, k), c.opts.seekableCache, c.cfg[k].preroll, s);
    SameNarrows(r.queues[n], r.queues[n], s);
    PruneStreamUnfolded(c, k);
    PrunedRangeQueues(r, k, p, c.cfg);
    var c1 := WithRange(c, 0, PrunedRange(r, k, p, c.cfg));
    NarrowerRangeTracks(c, 0, PrunedRange(r, k, p, c.cfg), n, s, at);
    FreeEmptyTracks(c1, n, s, at);
  }

  lemma {:induction false} PruneTracks(c: State, n: nat, s: seq<Packet>, at: nat)
    requires CacheOk(c) && c.Shape() && Tracks(c, n, s, at) && Ordered(s) && n < |c.cfg|
    ensures Tracks(Prune(c), n, s, at)
    decreases TotalPackets(c.ranges)
  {
    hide CacheOk, Tracks, Earliest, PruneStream, WithinBudget;
    if !WithinBudget(c) {
      var k := Earliest(c, 0, None);
      EarliestIsPrunable(c, 0, None);
      if k.Some? {
        PruneStreamOk(c, k.value);
        PruneStreamShrinks(c, k.value);
        PruneStreamTracks(c, k.value, n, s, at);
        PruneTracks(PruneStream(c, k.value), n, s, at);
      }
    }
  }

  // --- Switching ranges ---

  lemma SwitchedWindows(c: State, i: nat, n: nat, s: seq<Packet>)
    requires c.Shape() && i < c.Last() && n < |c.cfg| && Windows(c.ranges, n, s) && Ordered(s)
    ensures var c' := SwitchRange(c, i);
            && Windows(c'.ranges, n, s) && |c'.ranges| > 0
            && c'.ranges[|c'.ranges| - 1] == c.ranges[i]
  {
    hide Window, Narrows, FreeEmpty, Unjoinable, ClearRange;
    var last := c.ranges[c.Last()];
    var prev := TrimRange(last, c.cfg);
    assert Window(last.queues[n], s);
    TrimNarrows(last.queues[n], s);
    ApplyNarrows(last.queues[n], prev.queues[n], s);
    ClearedHasNoSpan(prev, c.cfg);
    ClearNarrows(prev.queues[n], s);
    var prev' := if Unjoinable(c) then ClearRange(prev, c.cfg) else prev;
    var rs := c.ranges[..i] + c.ranges[i + 1..c.Last()] + [prev'] + [c.ranges[i]];
    assert Window(prev'.queues[n], s) && |prev'.queues| == |c.cfg|;
    forall r | 0 <= r < |rs|
      ensures n < |rs[r].queues| && Window(rs[r].queues[n], s)
    {
      assert rs[r] == if r < i then c.ranges[r] else if r < c.Last() - 1 then c.ranges[r + 1]
                      else if r == c.Last() - 1 then prev' else c.ranges[i];
    }
    FreeEmptyWindows(rs, n, s, c.opts.seekableCache);
  }

  lemma ApplyNarrows(q: Queue, r: Queue, s: seq<Packet>)
    requires Narrows(q, r, s) && Window(q, s)
    ensures Window(r, s)
  {
  }

  lemma CacheSeekTracks(c: State, i: nat, to: SeekPoint, hr: bool, n: nat, s: seq<Packet>, at: nat)
    requires c.Shape() && i < |c.ranges| && n < |c.cfg| && c.cfg[n].selected && Ordered(s)
    requires Tracks(c, n, s, at)
    ensures Tracks(CacheSeek(c, i, to, hr), n, s, at)
  {
    hide Window, WindowAt, Untouched, SwitchRange, QueueTarget, AdjustTarget;
    var r := c.ranges[i];
    var to' := if hr then to else AdjustTarget(r, c.cfg, to, 0);
    var c1 := c.(streams := SeekStreams(c, r, to'));
    if i != c.Last() {
      SwitchedWindows(c1, i, n, s);
      SwitchKeepsConfig(c1, i);
    }
  }

  lemma FreshRangeTracks(c: State, n: nat, s: seq<Packet>, at: nat, pts: real)
    requires c.Shape() && n < |c.cfg| && Ordered(s) && Tracks(c, n, s, at)
    ensures Tracks(FreshRange(c).(seeking := true, seekPts := pts), n, s, at)
  {
    hide Window, SwitchRange;
    var last := c.ranges[c.Last()];
    if !c.opts.seekableCache {
      ClearedHasNoSpan(last, c.cfg);
      ClearNarrows(last.queues[n], s);
    } else {
      var c1 := c.(ranges := c.ranges[..c.Last()] + [NewRange(c.cfg), last]);
      assert Window(NewRange(c.cfg).queues[n], s) by { NewQueueWindow(s); }
      forall r | 0 <= r < |c1.ranges|
        ensures n < |c1.ranges[r].queues| && Window(c1.ranges[r].queues[n], s)
      {
        assert c1.ranges[r] == if r < c.Last() then c.ranges[r] else if r == c.Last() then NewRange(c.cfg) else last;
      }
      SwitchedWindows(c1, c.Last(), n, s);
      SwitchKeepsConfig(c1, c.Last());
    }
  }

  lemma NewQueueWindow(s: seq<Packet>)
    ensures Window(NewQueue(), s) && Untouched(NewQueue())
  {
  }

  lemma QueueSeekTracks(c: State, to: SeekPoint, hr: bool, cached: bool, seekable: bool, n: nat, s: seq<Packet>, at: nat)
    requires c.Shape() && n < |c.cfg| && c.cfg[n].selected && Ordered(s) && Tracks(c, n, s, at)
    ensures Tracks(QueueSeek(c, to, hr, cached, seekable), n, s, at)
  {
    hide CacheSeek, FreshRange, Tracks;
    var c1 := ClearReaders(c);
    ClearReadersTracks(c, n, s, at);
    var k := if c.opts.seekableCache then FindCacheRange(c, to.pts, 0) else |c.ranges|;
    if to.pts == NOPTS {
    } else if k < |c.ranges| {
      CacheSeekTracks(c1, k, to, hr, n, s, at);
    } else if !(cached || !seekable) {
      FreshRangeTracks(c1, n, s, at, to.pts);
    }
  }

  lemma ClearReadersTracks(c: State, n: nat, s: seq<Packet>, at: nat)
    requires Tracks(c, n, s, at)
    ensures Tracks(ClearReaders(c), n, s, at)
  {
    SameSyncTracks(c, ClearReaders(c), n, s, at);
  }

  // --- Runs ---

  datatype Op =
    | Deliver(n: nat, p: Packet)          // the demuxer returns a packet
    | ReachEof(n: nat)
    | Read(n: nat)                        // the decoder takes a packet
    | Seek(to: SeekPoint, hr: bool, cached: bool, seekable: bool)
    | MarkBof                             // demuxing starts at the beginning of the file
    | ExecuteSeek                         // the pending low-level seek is done
    | SetOptions(opts: Options)

  // dequeue_packet() on a stream with a packet to read
  function Advance(q: Queue, s: Stream): Stream {
    s.(readerHead := if s.readerHead.Some? && s.readerHead.value + 1 < q.End()
                     then Some(s.readerHead.value + 1) else None)
  }

  predicate Appends(c: State, n: nat, p: Packet)
    requires n < |c.cfg| == |c.streams|
  {
    p.len != 0 && c.cfg[n].selected && !c.seeking && !c.streams[n].refreshing
  }

  function DeliverStep(c: State, n: nat, p: Packet): State
    requires CacheOk(c) && c.Shape() && n < |c.cfg|
  {
    AddPacketOk(c, n, p);
    OkHasShape(AddPacket(c, n, p));
    if Appends(c, n, p) then Prune(AddPacket(c, n, p)) else AddPacket(c, n, p)
  }

  function ReadStep(c: State, n: nat): State
    requires CacheOk(c) && c.Shape() && n < |c.cfg|
  {
    if c.streams[n].readerHead.None? then c
    else
      ReadOk(c, n);
      Prune(WithStream(c, n, Advance(c.ranges[c.Last()].queues[n], c.streams[n])))
  }

  // read_packet() after a seek to the beginning of the file
  function Marked(q: Queue, cfg: StreamConfig, s: Stream): Queue {
    q.(isBof := cfg.selected && !s.refreshing)
  }

  function MarkedAll(qs: seq<Queue>, cfg: seq<StreamConfig>, ss: seq<Stream>): (r: seq<Queue>)
    requires |qs| == |cfg| == |ss|
    ensures |r| == |qs|
    ensures forall n :: 0 <= n < |qs| ==> r[n] == Marked(qs[n], cfg[n], ss[n])
  {
    seq(|qs|, n requires 0 <= n < |qs| == |cfg| == |ss| => Marked(qs[n], cfg[n], ss[n]))
  }

  function MarkBofStep(c: State): State
    requires c.Shape()
  {
    var r := c.ranges[c.Last()];
    WithRange(c, c.Last(), r.(queues := MarkedAll(r.queues, c.cfg, c.streams)))
  }

  lemma MarkBofOk(c: State)
    requires CacheOk(c) && c.Shape()
    ensures CacheOk(MarkBofStep(c))
  {
    hide Consistent, StartOk;
    var r, r' := c.ranges[c.Last()], MarkBofStep(c).ranges[c.Last()];
    assert RangeOk(r, c.cfg);
    forall n | 0 <= n < |c.cfg|
      ensures QueueOk(r'.queues[n], c.cfg[n]) && ReaderOk(r'.queues[n], c.streams[n])
    {
      assert QueueOk(r.queues[n], c.cfg[n]) && ReaderOk(r.queues[n], c.streams[n]);
      BofChangesNothing(r.queues[n], c.cfg[n], c.streams[n]);
    }
    if r.seekStart != NOPTS {
      var i :| 0 <= i < |c.cfg| && Counts(c.cfg[i]) && r.queues[i].seekStart != NOPTS;
      assert Counts(c.cfg[i]) && r'.queues[i].seekStart != NOPTS;
    }
    CurrentOk(c, r');
  }

  lemma BofChangesNothing(q: Queue, cfg: StreamConfig, s: Stream)
    requires QueueOk(q, cfg)
    ensures QueueOk(Marked(q, cfg, s), cfg)
  {
    var r := Marked(q, cfg, s);
    hide RunMin, IndexOk, AllBelow, StartOk, CumOk, NextKeyframe, SizeOk;
    SameListOk(q, r, cfg.preroll);
  }

  // update_opts()
  function OptionsStep(c: State, opts: Options): State
    requires CacheOk(c) && c.Shape()
  {
    OptionsOk(c, opts);
    PruneOutcome(c.(opts := opts));
    FreeEmptyRanges(Prune(c.(opts := opts)))
  }

  function Step(c: State, op: Op): State
    requires CacheOk(c) && c.Shape()
  {
    match op
    case Deliver(n, p) => if n < |c.cfg| then DeliverStep(c, n, p) else c
    case ReachEof(n) => if n < |c.cfg| then MarkEof(c, n) else c
    case Read(n) => if n < |c.cfg| then ReadStep(c, n) else c
    case Seek(to, hr, cached, seekable) => QueueSeek(c, to, hr, cached, seekable)
    case MarkBof => MarkBofStep(c)
    case ExecuteSeek => c.(seeking := false)
    case SetOptions(opts) => OptionsStep(c, opts)
  }

  lemma OptionsOk(c: State, opts: Options)
    requires CacheOk(c) && c.Shape()
    ensures CacheOk(c.(opts := opts)) && c.(opts := opts).Shape()
  {
    hide RangesOk, OthersSeekable, ReadersOk;
  }

  lemma ReadOk(c: State, n: nat)
    requires CacheOk(c) && c.Shape() && n < |c.cfg|
    ensures var c' := WithStream(c, n, Advance(c.ranges[c.Last()].queues[n], c.streams[n]));
            CacheOk(c') && c'.Shape()
  {
    hide RangeOk;
    var qs := c.ranges[c.Last()].queues;
    var c' := WithStream(c, n, Advance(qs[n], c.streams[n]));
    forall i | 0 <= i < |c'.streams|
      ensures ReaderOk(qs[i], c'.streams[i])
    {
      assert ReaderOk(qs[i], c.streams[i]);
    }
  }

  // Every step keeps the cache in order.
  lemma StepOk(c: State, op: Op)
    requires CacheOk(c) && c.Shape()
    ensures CacheOk(Step(c, op)) && Step(c, op).Shape()
  {
    hide RangesOk, OthersSeekable, ReadersOk, AddPacket, MarkEof, Prune, QueueSeek, FreeEmptyRanges, Advance;
    match op {
      case Deliver(n, p) =>
        if n < |c.cfg| {
          AddPacketOk(c, n, p);
          OkHasShape(AddPacket(c, n, p));
          PruneOutcome(AddPacket(c, n, p));
        }
      case ReachEof(n) =>
        if n < |c.cfg| {
          MarkEofOk(c, n);
        }
      case Read(n) =>
        if n < |c.cfg| {
          ReadOk(c, n);
          PruneOutcome(WithStream(c, n, Advance(c.ranges[c.Last()].queues[n], c.streams[n])));
        }
      case Seek(to, hr, cached, seekable) =>
        QueueSeekOk(c, to, hr, cached, seekable);
      case MarkBof =>
        MarkBofOk(c);
      case ExecuteSeek =>
      case SetOptions(opts) =>
        OptionsOk(c, opts);
        PruneOutcome(c.(opts := opts));
        FreeEmptyRangesOk(Prune(c.(opts := opts)));
    }
    OkHasShape(Step(c, op));
  }

  function Run(c: State, ops: seq<Op>): State
    requires CacheOk(c) && c.Shape()
    decreases |ops|
  {
    if |ops| == 0 then c
    else
      StepOk(c, ops[0]);
      Run(Step(c, ops[0]), ops[1..])
  }

  // The cache stays consistent over every run, whatever the demuxer delivers.
  lemma {:induction false} RunKeepsCache(c: State, ops: seq<Op>)
    requires CacheOk(c) && c.Shape()
    ensures CacheOk(Run(c, ops)) && Run(c, ops).Shape()
    decreases |ops|
  {
    hide CacheOk, Step;
    if |ops| > 0 {
      StepOk(c, ops[0]);
      RunKeepsCache(Step(c, ops[0]), ops[1..]);
    }
  }

  // The state the cache starts in.
  function Initial(cfg: seq<StreamConfig>, opts: Options): (c: State)
    ensures CacheOk(c) && c.Shape()
  {
    var c := State([NewRange(cfg)], cfg, seq(|cfg|, n => Stream(false, true, true, false, None, false)), false, NOPTS, opts);
    NewRangeOk(cfg);
    OkHasShape(c);
    c
  }

  lemma InitialOk(cfg: seq<StreamConfig>, opts: Options)
    ensures CacheOk(Initial(cfg, opts)) && Initial(cfg, opts).Shape()
    ensures forall n: nat, w: seq<Packet>, at: nat :: n < |cfg| && Ordered(w) ==> Tracks(Initial(cfg, opts), n, StoredAll(w, cfg[n]), at)
  {
    var c := Initial(cfg, opts);
    forall n: nat, w: seq<Packet>, at: nat | n < |cfg| && Ordered(w)
      ensures Tracks(c, n, StoredAll(w, cfg[n]), at)
    {
      NewQueueWindow(StoredAll(w, cfg[n]));
      StoredOrdered(w, cfg[n]);
    }
  }

  // --- The demuxer's position over a run ---

  ghost predicate ResumesBefore(q: Queue, s: seq<Packet>, at: nat) {
    forall hi: nat :: WindowAt(q, s, hi) ==> at < hi && Replays(q, s, at, hi)
  }

  // How a step moves the demuxer's position in stream n. The one thing asked of
  // low-level seeks: after a seek to the end of a cached range, demuxing resumes
  // at or before the last packet in the queue.
  ghost predicate Moves(c: State, op: Op, n: nat, w: seq<Packet>, at: nat, at': nat)
    requires n < |c.cfg|
  {
    match op
    case Deliver(m, p) => if m == n then at < |w| && p == w[at] && at' == at + 1 else at' == at
    case ExecuteSeek =>
      && c.seeking && |c.ranges| > 0 && n < |c.ranges[|c.ranges| - 1].queues|
      && ResumesBefore(c.ranges[|c.ranges| - 1].queues[n], StoredAll(w, c.cfg[n]), at')
    case _ => at' == at
  }

  ghost predicate Follows(c: State, ops: seq<Op>, n: nat, w: seq<Packet>, ats: seq<nat>)
    requires CacheOk(c) && c.Shape() && n < |c.cfg|
    decreases |ops|
  {
    if |ops| == 0 then |ats| == 1
    else
      StepOk(c, ops[0]);
      StepConfig(c, ops[0]);
      |ats| > 1 && Moves(c, ops[0], n, w, ats[0], ats[1]) && Follows(Step(c, ops[0]), ops[1..], n, w, ats[1..])
  }

  lemma {:induction false} PruneConfig(c: State)
    requires CacheOk(c) && c.Shape()
    ensures Prune(c).cfg == c.cfg && Prune(c).seeking == c.seeking
    decreases TotalPackets(c.ranges)
  {
    hide CacheOk, Earliest, WithinBudget, PruneQueue;
    if !WithinBudget(c) {
      var k := Earliest(c, 0, None);
      EarliestIsPrunable(c, 0, None);
      if k.Some? {
        PruneStreamOk(c, k.value);
        PruneStreamShrinks(c, k.value);
        PruneConfig(PruneStream(c, k.value));
      }
    }
  }

  lemma StepConfig(c: State, op: Op)
    requires CacheOk(c) && c.Shape()
    ensures Step(c, op).cfg == c.cfg
  {
    hide CacheOk, Prune, SwitchRange, SeekStreams, AdjustTarget, FreeEmpty, TrimAll, ClearRange, UpdateSeekRanges;
    match op {
      case Deliver(n, p) =>
        if n < |c.cfg| {
          AddPacketOk(c, n, p);
          OkHasShape(AddPacket(c, n, p));
          PruneConfig(AddPacket(c, n, p));
        }
      case ReachEof(n) =>
      case Read(n) =>
        if n < |c.cfg| && c.streams[n].readerHead.Some? {
          ReadOk(c, n);
          PruneConfig(WithStream(c, n, Advance(c.ranges[c.Last()].queues[n], c.streams[n])));
        }
      case Seek(to, hr, cached, seekable) =>
        SeekConfig(c, to, hr, cached, seekable);
      case MarkBof =>
      case ExecuteSeek =>
      case SetOptions(opts) =>
        OptionsOk(c, opts);
        PruneConfig(c.(opts := opts));
    }
  }

  lemma SeekConfig(c: State, to: SeekPoint, hr: bool, cached: bool, seekable: bool)
    requires c.Shape()
    ensures QueueSeek(c, to, hr, cached, seekable).cfg == c.cfg
  {
    hide FreeEmpty, TrimRange, ClearRange, AdjustTarget, QueueTarget, Unjoinable;
  }

  // Every step keeps track of the stream.
  lemma StepTracks(c: State, op: Op, n: nat, w: seq<Packet>, at: nat, at': nat)
    requires CacheOk(c) && c.Shape() && n < |c.cfg| && Counts(c.cfg[n]) && Ordered(w)
    requires Tracks(c, n, StoredAll(w, c.cfg[n]), at) && Moves(c, op, n, w, at, at')
    ensures Tracks(Step(c, op), n, StoredAll(w, c.cfg[n]), at')
  {
    hide CacheOk, Tracks, AddPacket, MarkEof, Prune, QueueSeek, FreeEmptyRanges, Advance, WindowAt;
    var s := StoredAll(w, c.cfg[n]);
    StoredOrdered(w, c.cfg[n]);
    match op {
      case Deliver(m, p) =>
        if m < |c.cfg| {
          if m == n {
            AddPacketTracks(c, n, w, at);
          } else {
            OtherPacketTracks(c, m, p, n, s, at);
          }
          AddPacketOk(c, m, p);
          OkHasShape(AddPacket(c, m, p));
          AddPacketConfig(c, m, p);
          PruneTracks(AddPacket(c, m, p), n, s, at');
        }
      case ReachEof(m) =>
        if m < |c.cfg| {
          MarkEofTracks(c, m, n, s, at);
        }
      case Read(m) =>
        if m < |c.cfg| {
          ReadOk(c, m);
          var c1 := WithStream(c, m, Advance(c.ranges[c.Last()].queues[m], c.streams[m]));
          AdvanceTracks(c, m, n, s, at);
          PruneTracks(c1, n, s, at);
        }
      case Seek(to, hr, cached, seekable) =>
        QueueSeekTracks(c, to, hr, cached, seekable, n, s, at);
      case MarkBof =>
        MarkBofTracks(c, n, s, at);
      case ExecuteSeek =>
        ExecuteSeekTracks(c, n, w, at, at');
      case SetOptions(opts) =>
        var c1 := c.(opts := opts);
        OptionsOk(c, opts);
        SameSyncTracks(c, c1, n, s, at);
        PruneTracks(c1, n, s, at);
        PruneOutcome(c1);
        FreeEmptyTracks(Prune(c1), n, s, at);
    }
  }

  lemma AddPacketConfig(c: State, n: nat, p: Packet)
    requires c.Shape() && n < |c.cfg|
    ensures AddPacket(c, n, p).cfg == c.cfg
  {
    hide FreeEmpty, TrimAll, ClearRange, UpdateSeekRanges, NeedsUpdate, AdjustQueue;
  }

  lemma MarkBofTracks(c: State, n: nat, s: seq<Packet>, at: nat)
    requires Tracks(c, n, s, at) && c.Shape() && n < |c.cfg|
    ensures Tracks(MarkBofStep(c), n, s, at)
  {
    hide Narrows;
    var r, r' := c.ranges[c.Last()], MarkBofStep(c).ranges[c.Last()];
    SameNarrows(r.queues[n], r'.queues[n], s);
    NarrowerRangeTracks(c, c.Last(), r', n, s, at);
  }

  lemma AdvanceTracks(c: State, m: nat, n: nat, s: seq<Packet>, at: nat)
    requires Tracks(c, n, s, at) && c.Shape() && m < |c.cfg|
    ensures Tracks(WithStream(c, m, Advance(c.ranges[c.Last()].queues[m], c.streams[m])), n, s, at)
  {
    SameSyncTracks(c, WithStream(c, m, Advance(c.ranges[c.Last()].queues[m], c.streams[m])), n, s, at);
  }

  lemma UntouchedHasNoWindow(q: Queue, s: seq<Packet>)
    requires Ordered(s) && Untouched(q)
    ensures forall hi: nat :: !WindowAt(q, s, hi)
  {
  }

  lemma ExecuteSeekTracks(c: State, n: nat, w: seq<Packet>, at: nat, at': nat)
    requires c.Shape() && n < |c.cfg| && Ordered(w)
    requires Tracks(c, n, StoredAll(w, c.cfg[n]), at) && Moves(c, ExecuteSeek, n, w, at, at')
    ensures Tracks(c.(seeking := false), n, StoredAll(w, c.cfg[n]), at')
  {
    hide Window;
    var s := StoredAll(w, c.cfg[n]);
    StoredOrdered(w, c.cfg[n]);
    var q := c.ranges[c.Last()].queues[n];
    if Untouched(q) {
      UntouchedHasNoWindow(q, s);
    }
  }

  // Over every run, each queue of a selected eager stream is a contiguous piece
  // of the demuxed stream: nothing is lost, and nothing is there twice.
  lemma {:induction false} RunKeepsWindows(c: State, ops: seq<Op>, n: nat, w: seq<Packet>, ats: seq<nat>)
    requires CacheOk(c) && c.Shape() && n < |c.cfg| && Counts(c.cfg[n]) && Ordered(w)
    requires |ats| > 0 && Tracks(c, n, StoredAll(w, c.cfg[n]), ats[0]) && Follows(c, ops, n, w, ats)
    ensures Tracks(Run(c, ops), n, StoredAll(w, c.cfg[n]), ats[|ats| - 1])
    decreases |ops|
  {
    hide CacheOk, Tracks, Step, Moves;
    if |ops| > 0 {
      StepOk(c, ops[0]);
      StepConfig(c, ops[0]);
      StepTracks(c, ops[0], n, w, ats[0], ats[1]);
      RunKeepsWindows(Step(c, ops[0]), ops[1..], n, w, ats[1..]);
    }
  }

  // A join that fails costs the next range, but does not touch the current one.
  lemma FailedJoinKeepsCurrent(c: State)
    requires c.Shape()
    requires var next := ChooseNext(c.ranges, c.Last());
             next.Some? && next.value < c.Last()
             && TrimAll(c.ranges[c.Last()].queues, c.ranges[next.value].queues, c.cfg, c.streams, |c.cfg|).None?
    ensures var c' := AttemptJoin(c);
            && |c'.ranges| > 0 && c'.ranges[|c'.ranges| - 1] == c.ranges[c.Last()]
            && c'.streams == c.streams && c'.seeking == c.seeking
            && |c'.ranges| < |c.ranges|
  {
    hide ChooseNext, TrimAll, Kept, Evict, Keep, JoinWith, Subsequence, ClearRange;
    var i := ChooseNext(c.ranges, c.Last()).value;
    ClearedHasNoSpan(c.ranges[i], c.cfg);
    var rs := c.ranges[i := ClearRange(c.ranges[i], c.cfg)];
    EvictionOutcome(rs, c.opts.seekableCache);
    DroppedOne(rs[..c.Last()], i, c.opts.seekableCache);
    EvictedWereShortest(Kept(rs[..c.Last()], c.opts.seekableCache), MAX_SEEK_RANGES - 1);
  }

  lemma {:induction false} KeptLength(rs: seq<Range>, seekable: bool)
    ensures |Kept(rs, seekable)| <= |rs|
    decreases |rs|
  {
    hide Keep;
    if |rs| > 0 {
      KeptLength(rs[..|rs| - 1], seekable);
    }
  }

  lemma {:induction false} DroppedOne(rs: seq<Range>, i: nat, seekable: bool)
    requires i < |rs| && rs[i].seekStart == NOPTS
    ensures |Kept(rs, seekable)| < |rs|
    decreases |rs|
  {
    var last := |rs| - 1;
    assert i == last ==> !Keep(rs[last], seekable);
    hide Keep;
    if i < last {
      DroppedOne(rs[..last], i, seekable);
    } else {
      KeptLength(rs[..last], seekable);
    }
  }
}
