// Inputs on which properties one would expect of the cache fail: two runs from
// the initial state that show what it costs when a queue loses the mark of the
// beginning of the file. (EmptyJoins has another one.)

module FailingRuns {
  import opened Timestamps
  import opened Wrappers
  import opened Packets
  import opened RingIndex
  import opened SeekTarget
  import opened Queues
  import opened Ranges
  import opened Cache
  import opened CacheInvariants
  import opened Pruning
  import opened CacheRuns
  import opened FileStart

  function At(t: real, pos: int, keyframe: bool): Packet {
    Packet(t, t, pos, keyframe, 1, 1, false, NOPTS, NOPTS)
  }

  // A keyframe. Where it is in the file tells its second.
  function Key(t: real): Packet {
    At(t, t.Floor, true)
  }

  // --- Appending single-packet runs ---

  // A keyframe that directly follows the last one closes its run.
  function Keyed(q: Queue, p: Packet): Queue
    requires q.End() > 0
  {
    var e := IndexEntry(q.lastDts, q.End() - 1);
    Append(q, p).(kfLatest := Some(q.End()), seekEnd := q.lastDts,
                  index := AddEntry(q.index, e), indexSize := SizeAfterAdd(q.index, q.indexSize, e),
                  seekStart := if q.seekStart == NOPTS then q.lastDts else q.seekStart)
  }

  lemma SingleRun(s: seq<Packet>, i: nat)
    requires i < |s| && (i + 1 < |s| ==> s[i + 1].keyframe) && !s[i].segmented && s[i].pts != NOPTS
    ensures RunMin(s, i) == RunMax(s, i) == s[i].pts
  {
    assert RunEnd(s, i) == i + 1;
    assert MinTime(s, i, i) == NOPTS && MaxTime(s, i, i) == NOPTS;
  }

  lemma KeyframeFed(q: Queue, p: Packet)
    requires |q.cum| == |q.pkts| > 0 && q.kfLatest == Some(q.End() - 1) && p.keyframe && !q.isEof
    requires var l := q.pkts[|q.pkts| - 1]; l.keyframe && !l.segmented && l.pts == q.lastDts > NOPTS
    requires q.seekEnd < q.lastDts
    ensures AdjustQueue(Append(q, p), Some(q.End()), 0.0) == Keyed(q, p)
  {
    SingleRun(q.pkts + [p], |q.pkts| - 1);
  }

  lemma FirstFed(q: Queue, p: Packet)
    requires |q.cum| == |q.pkts| && q.kfLatest.None? && !q.isEof
    ensures AdjustQueue(Append(q, p), Some(q.End()), 0.0)
            == Append(q, p).(kfLatest := if p.keyframe then Some(q.End()) else None)
  {
  }

  // --- A cache with one range ---

  // Nothing is kept for seeking back that the readers are past.
  const NO_BACKBUFFER: Options := Options(1000, 0, false, true)

  function Reader(reader: Option<nat>): Stream {
    Stream(false, true, true, false, reader, false)
  }

  function One(r: Range, cfg: seq<StreamConfig>, readers: seq<Option<nat>>): State {
    State([r], cfg, seq(|readers|, n requires 0 <= n < |readers| => Reader(readers[n])), false, NOPTS, NO_BACKBUFFER)
  }

  lemma NothingToPrune(c: State)
    requires CacheOk(c) && c.Shape() && NothingPrunable(c)
    ensures Prune(c) == c
  {
    hide CacheOk, Earliest, PruneStream, WithinBudget, Prunable;
    EarliestIsPrunable(c, 0, None);
  }

  lemma OneJoin(c: State)
    requires c.Shape() && |c.ranges| == 1
    ensures AttemptJoin(c) == c
  {
  }

  // The packet becomes the reader's if it is the first one.
  lemma AppendedOne(r: Range, cfg: seq<StreamConfig>, readers: seq<Option<nat>>, n: nat, p: Packet)
    requires QueuesShape(r, cfg) && |readers| == |cfg| && n < |cfg|
    requires readers[n] == if |r.queues[n].pkts| > 0 then Some(r.queues[n].base) else None
    requires Stored(p, cfg[n]) == p && Append(r.queues[n], p).correctDts && Append(r.queues[n], p).correctPos
    ensures AppendPacket(One(r, cfg, readers), n, p)
            == One(SetQueue(r, n, Append(r.queues[n], p)), cfg, readers[n := Some(r.queues[n].base)])
  {
    hide Append;
    var c, c' := AppendPacket(One(r, cfg, readers), n, p),
                 One(SetQueue(r, n, Append(r.queues[n], p)), cfg, readers[n := Some(r.queues[n].base)]);
    assert c.streams == c'.streams;
    assert c.ranges == c'.ranges;
  }

  function Spanned(r: Range, n: nat, dp: Option<nat>, q: Queue, cfg: seq<StreamConfig>): Range
    requires n < |r.queues| == |cfg|
  {
    var r' := SetQueue(r, n, q);
    if NeedsUpdate(r.queues[n], dp, r.seekEnd) && cfg[n].eager then UpdateSeekRanges(r', cfg) else r'
  }

  lemma AdjustedOne(r: Range, cfg: seq<StreamConfig>, readers: seq<Option<nat>>, n: nat, dp: Option<nat>)
    requires QueuesShape(r, cfg) && |readers| == |cfg| && n < |cfg| && cfg[n].preroll == 0.0
    ensures AdjustSeekRange(One(r, cfg, readers), n, dp)
            == One(Spanned(r, n, dp, AdjustQueue(r.queues[n], dp, 0.0), cfg), cfg, readers)
  {
    hide UpdateSeekRanges, NeedsUpdate, AttemptJoin;
    var q := AdjustQueue(r.queues[n], dp, 0.0);
    assert q.pkts == r.queues[n].pkts && q.cum == r.queues[n].cum;
    hide AdjustQueue;
    UpdatedSpan(SetQueue(r, n, q), cfg);
    assert QueuesShape(UpdateSeekRanges(SetQueue(r, n, q), cfg), cfg);
    var c := One(UpdateSeekRanges(SetQueue(r, n, q), cfg), cfg, readers);
    assert c.ranges == One(r, cfg, readers).ranges[0 := UpdateSeekRanges(SetQueue(r, n, q), cfg)];
    assert One(r, cfg, readers).ranges[0 := SetQueue(r, n, q)] == [SetQueue(r, n, q)];
    OneJoin(c);
  }

  // A packet arrives, and all readers are at the heads of their queues.
  lemma Delivered(r: Range, cfg: seq<StreamConfig>, readers: seq<Option<nat>>, n: nat, p: Packet, q: Queue)
    requires CacheOk(One(r, cfg, readers)) && |readers| == |cfg| == |r.queues| && n < |cfg|
    requires forall k :: 0 <= k < |cfg| ==> readers[k] == if |r.queues[k].pkts| > 0 then Some(r.queues[k].base) else None
    requires cfg[n].selected && cfg[n].preroll == 0.0 && p.len > 0 && Stored(p, cfg[n]) == p
    requires Append(r.queues[n], p).correctDts && Append(r.queues[n], p).correctPos
    requires q == AdjustQueue(Append(r.queues[n], p), Some(r.queues[n].End()), 0.0)
    ensures var c := One(r, cfg, readers);
            var r' := SetQueue(r, n, Append(r.queues[n], p));
            && c.Shape()
            && Step(c, Deliver(n, p))
               == One(Spanned(r', n, Some(r.queues[n].End()), q, cfg), cfg, readers[n := Some(r.queues[n].base)])
  {
    var c := One(r, cfg, readers);
    OkHasShape(c);
    AddPacketOk(c, n, p);
    OkHasShape(AddPacket(c, n, p));
    AppendedOne(r, cfg, readers, n, p);
    AppendShape(c, n, p);
    var r' := SetQueue(r, n, Append(r.queues[n], p));
    AdjustedOne(r', cfg, readers[n := Some(r.queues[n].base)], n, Some(r.queues[n].End()));
    var c' := One(Spanned(r', n, Some(r.queues[n].End()), q, cfg), cfg, readers[n := Some(r.queues[n].base)]);
    assert AddPacket(c, n, p) == c';
    assert NothingPrunable(c') by {
      SpannedQueues(r', n, Some(r.queues[n].End()), q, cfg);
      hide Spanned, AdjustQueue;
    }
    hide AddPacket, Spanned, AdjustQueue, Append;
    NothingToPrune(c');
  }

  lemma SpannedQueues(r: Range, n: nat, dp: Option<nat>, q: Queue, cfg: seq<StreamConfig>)
    requires n < |r.queues| == |cfg|
    ensures Spanned(r, n, dp, q, cfg).queues == r.queues[n := q]
  {
    UpdatedSpan(SetQueue(r, n, q), cfg);
  }

  // The span of a range of two queues, one of which is at the beginning of the
  // file and none of which has reached the end.
  lemma TwoQueues(r: Range, cfg: seq<StreamConfig>)
    requires |r.queues| == |cfg| == 2 && Counts(cfg[0]) && r.queues[0].isBof && !r.queues[0].isEof && !r.queues[1].isEof
    requires Counts(cfg[1]) ==> r.queues[1].isBof
    ensures var a, b := r.queues[0], r.queues[1];
            var start := if Counts(cfg[1]) then PtsMin(a.seekStart, b.seekStart)
                         else if cfg[1].selected && b.lastPruned != NOPTS && a.seekStart != NOPTS
                         then PtsMax(a.seekStart, b.lastPruned + 0.1) else a.seekStart;
            var end := if Counts(cfg[1]) then PtsMin(a.seekEnd, b.seekEnd) else a.seekEnd;
            UpdateSeekRanges(r, cfg)
            == if BadSpan(a) || (Counts(cfg[1]) && BadSpan(b)) || start >= end
               then Range(r.queues, NOPTS, NOPTS, true, false) else Range(r.queues, start, end, true, false)
  {
    var qs := r.queues;
    assert MinBofStart(qs, cfg, 0) == NOPTS && MinEnd(qs, cfg, 0) == NOPTS;
    assert MinBofStart(qs, cfg, 1) == qs[0].seekStart && MinEnd(qs, cfg, 1) == qs[0].seekEnd;
    assert AllBof(qs, cfg, 1) && AllBof(qs, cfg, 2) && !AllEof(qs, cfg, 1) && !AllEof(qs, cfg, 2);
    assert FirstBad(qs, cfg, 2) == 2;
    assert FirstBad(qs, cfg, 1) == if Counts(cfg[1]) && BadSpan(qs[1]) then 1 else 2;
    var start := MinBofStart(qs, cfg, 2);
    assert SparseStart(qs, cfg, start, 0) == start == SparseStart(qs, cfg, start, 1);
  }

  // --- Reading makes packets prunable ---

  lemma {:induction false} ForwardIsLess(qs: seq<Queue>, ss: seq<Stream>, m: nat, n: nat)
    requires n < m <= |qs| == |ss|
    requires forall i :: 0 <= i < |qs| ==> CumOk(qs[i]) && ReaderOk(qs[i], ss[i])
    requires |qs[n].pkts| > 1 && qs[n].pkts[0].size > 0 && ss[n].readerHead == Some(qs[n].base + 1)
    ensures ForwardTotal(qs, ss, m) < QueuesBytes(qs[..m])
  {
    var q, reader := qs[m - 1], ss[m - 1].readerHead;
    assert qs[..m][..m - 1] == qs[..m - 1];
    BytesAreSizes(q);
    if n < m - 1 {
      ForwardIsLess(qs, ss, m - 1, n);
      if reader.Some? {
        ForwardBytesAreSizes(q, reader.value);
      }
    } else {
      ForwardTotalWithin(qs, ss, n);
      ForwardBytesAreSizes(q, q.base + 1);
    }
  }

  lemma OverBudget(c: State, n: nat)
    requires CacheOk(c) && c.Shape() && |c.ranges| == 1 && n < |c.cfg| && c.opts == NO_BACKBUFFER
    requires var q := c.ranges[0].queues[n];
             |q.pkts| > 1 && q.pkts[0].size > 0 && c.streams[n].readerHead == Some(q.base + 1)
    ensures !WithinBudget(c)
  {
    hide CumOk, KeyframesOk, QIndexOk, StartOk, Backed;
    var qs := c.ranges[0].queues;
    assert RangeOk(c.ranges[0], c.cfg);
    forall i | 0 <= i < |qs|
      ensures CumOk(qs[i]) && ReaderOk(qs[i], c.streams[i])
    {
      assert QueueOk(qs[i], c.cfg[i]);
    }
    ForwardIsLess(qs, c.streams, |qs|, n);
    assert qs[..|qs|] == qs && c.ranges[..0] == [];
    assert TotalBytes(c.ranges) == TotalBytes(c.ranges[..0]) + RangeBytes(c.ranges[0]);
  }

  lemma OnlyPrunable(c: State, n: nat)
    requires CacheOk(c) && c.Shape() && |c.ranges| == 1 && n < |c.cfg|
    requires forall k :: 0 <= k < |c.cfg| ==> (Prunable(c.ranges[0].queues[k], ReaderIn(c, 0, k)) <==> k == n)
    ensures Earliest(c, 0, None) == Some(n)
  {
    EarliestIsPrunable(c, 0, None);
    assert Prunable(c.ranges[0].queues[n], ReaderIn(c, 0, n));
  }

  // One round is enough if only one packet can be pruned.
  lemma PrunedOnce(c: State, n: nat)
    requires CacheOk(c) && c.Shape() && |c.ranges| == 1 && n < |c.cfg| && !WithinBudget(c)
    requires forall k :: 0 <= k < |c.cfg| ==> (Prunable(c.ranges[0].queues[k], ReaderIn(c, 0, k)) <==> k == n)
    requires Settled(PruneStream(c, n))
    ensures Prune(c) == PruneStream(c, n)
  {
    hide CacheOk, WithinBudget, PruneStream, Prunable;
    OnlyPrunable(c, n);
    PruneStreamOk(c, n);
    PruneStreamShrinks(c, n);
    NothingToPrune(PruneStream(c, n));
  }

  ghost predicate Settled(c: State) {
    c.Shape() && NothingPrunable(c)
  }

  // The reader of stream n moves from the head to the next packet, and all that
  // can be pruned then is the old head.
  lemma ReadAndPruned(r: Range, cfg: seq<StreamConfig>, readers: seq<Option<nat>>, n: nat)
    requires CacheOk(One(r, cfg, readers)) && |readers| == |cfg| == |r.queues| && n < |cfg|
    requires forall k :: 0 <= k < |cfg| ==> |r.queues[k].pkts| > 0 && readers[k] == Some(r.queues[k].base)
    requires |r.queues[n].pkts| > 1 && r.queues[n].pkts[0].size > 0
    ensures var c := One(r, cfg, readers);
            var p := PruneQueue(r.queues[n], Some(r.queues[n].base + 1), true, cfg[n].preroll);
            && c.Shape()
            && Step(c, Read(n)) == One(PrunedRange(r, n, p, cfg), cfg, readers[n := Some(r.queues[n].base + 1)])
  {
    hide CacheOk, PruneQueue, PrunedRange, PruneStream, WithinBudget;
    var c, q := One(r, cfg, readers), r.queues[n];
    OkHasShape(c);
    ReadOk(c, n);
    var readers' := readers[n := Some(q.base + 1)];
    var c1 := One(r, cfg, readers');
    assert c1.streams == WithStream(c, n, Advance(q, c.streams[n])).streams;
    assert Step(c, Read(n)) == Prune(c1);
    OverBudget(c1, n);
    OneRound(r, cfg, readers', n);
    PrunedOnce(c1, n);
  }

  lemma OneRound(r: Range, cfg: seq<StreamConfig>, readers: seq<Option<nat>>, n: nat)
    requires QueuesShape(r, cfg) && |readers| == |cfg| && n < |cfg|
    requires |r.queues[n].pkts| > 1 && readers[n] == Some(r.queues[n].base + 1)
    requires forall k :: 0 <= k < |cfg| && k != n ==> readers[k] == Some(r.queues[k].base)
    ensures var p := PruneQueue(r.queues[n], Some(r.queues[n].base + 1), true, cfg[n].preroll);
            var c' := One(PrunedRange(r, n, p, cfg), cfg, readers);
            PruneStream(One(r, cfg, readers), n) == c' && Settled(c')
  {
    hide PruneQueue, PrunedRange, PruneStream;
    var c, q := One(r, cfg, readers), r.queues[n];
    var reader := Some(q.base + 1);
    PruneStreamUnfolded(c, n);
    var p := PruneQueue(q, reader, true, cfg[n].preroll);
    PrunedRangeQueues(r, n, p, cfg);
    PruneQueueShape(q, reader, true, cfg[n].preroll);
    var c' := One(PrunedRange(r, n, p, cfg), cfg, readers);
    assert WithRange(c, 0, PrunedRange(r, n, p, cfg)).ranges == c'.ranges;
  }

  lemma PruneQueueShape(q: Queue, reader: Option<nat>, seekable: bool, preroll: real)
    requires |q.cum| == |q.pkts| > 1 && reader == Some(q.base + 1) && seekable
    ensures var p := PruneQueue(q, reader, seekable, preroll).q; |p.cum| == |p.pkts| && !Prunable(p, reader)
  {
    var r := RemoveHead(q);
    var nonKf := !q.pkts[0].keyframe;
    assert PruneRun(r, reader, seekable, nonKf, !nonKf) == Pruned(r, !nonKf);
    assert PruneRun(q, reader, seekable, nonKf, false) == Pruned(r, !nonKf);
    hide RunMin, PruneRun;
  }

  // --- Queues of keyframes ---

  ghost predicate Rising(ts: seq<real>) {
    && |ts| < 100 && (|ts| > 0 ==> ts[0] >= 0.0)
    && forall i, j :: 0 <= i < j < |ts| ==> ts[i] + 1.0 <= ts[j]
  }

  function KeyPackets(ts: seq<real>): (s: seq<Packet>)
    ensures |s| == |ts|
  {
    seq(|ts|, i requires 0 <= i < |ts| => Key(ts[i]))
  }

  function KeyEntries(ts: seq<real>): (s: seq<IndexEntry<nat>>)
    ensures |s| == if |ts| > 0 then |ts| - 1 else 0
  {
    if |ts| == 0 then [] else seq(|ts| - 1, i requires 0 <= i < |ts| - 1 => IndexEntry(ts[i], i))
  }

  // A queue that got keyframes at the given times, from the beginning of the
  // file on.
  function Keys(ts: seq<real>): Queue {
    var n := |ts|;
    Queue(KeyPackets(ts), seq(n, i => i), n, 0, true, true, if n > 0 then ts[n - 1].Floor else -1, if n > 0 then ts[n - 1] else NOPTS,
          if n > 0 then Some(n - 1) else None, None,
          if n > 1 then ts[0] else NOPTS, if n > 1 then ts[n - 2] else NOPTS, NOPTS,
          true, false, KeyEntries(ts), if n > 1 then 128 else 0)
  }

  lemma KeysFed(ts: seq<real>, t: real)
    requires Rising(ts + [t])
    ensures var q, p := Keys(ts), Key(t);
            && AdjustQueue(Append(q, p), Some(q.End()), 0.0) == Keys(ts + [t])
            && Append(q, p).correctDts && Append(q, p).correctPos
  {
    var q, p, n := Keys(ts), Key(t), |ts|;
    var all := ts + [t];
    assert n > 0 ==> all[n - 1] == ts[n - 1] && all[n - 1] + 1.0 <= all[n];
    assert n > 0 ==> all[0] == ts[0] && (n == 1 || all[0] + 1.0 <= all[n - 1]);
    assert n > 1 ==> all[n - 2] == ts[n - 2] && all[n - 2] + 1.0 <= all[n - 1];
    hide AdjustQueue, Rising;
    KeysGrow(ts, t);
    if n == 0 {
      FirstFed(q, p);
    } else {
      KeyframeFed(q, p);
    }
  }

  lemma KeysGrow(ts: seq<real>, t: real)
    requires |ts| < 99 && (|ts| > 1 ==> ts[|ts| - 2] + 1.0 <= ts[|ts| - 1])
    requires |ts| > 0 ==> ts[0] > NOPTS && ts[|ts| - 1] > NOPTS && t >= ts[|ts| - 1] + 1.0
    requires t >= 0.0
    ensures var q, p := Keys(ts), Key(t);
            && Keys(ts + [t]) == (if |ts| == 0 then Append(q, p).(kfLatest := Some(q.End())) else Keyed(q, p))
            && Append(q, p).correctDts && Append(q, p).correctPos
  {
    var q, p, n, all := Keys(ts), Key(t), |ts|, ts + [t];
    assert KeyPackets(all) == KeyPackets(ts) + [p];
    assert seq(n + 1, i => i) == seq(n, i => i) + [n];
    if n > 0 {
      assert KeyEntries(all) == KeyEntries(ts) + [IndexEntry(ts[n - 1], n - 1)];
      assert n > 1 ==> KeyEntries(ts)[n - 2].pts == ts[n - 2];
    }
  }

  lemma KeysNeedUpdate(ts: seq<real>, t: real, rangeEnd: real)
    requires Rising(ts + [t])
    ensures NeedsUpdate(Append(Keys(ts), Key(t)), Some(|ts|), rangeEnd)
            == (|ts| == 1 || (|ts| > 1 && (rangeEnd == NOPTS || ts[|ts| - 2] <= rangeEnd)))
  {
    var q, n, all := Append(Keys(ts), Key(t)), |ts|, ts + [t];
    if n > 0 {
      assert all[n - 1] == ts[n - 1] && all[0] == ts[0] && (n == 1 || all[0] + 1.0 <= all[n - 1]);
      assert n > 1 ==> all[n - 2] == ts[n - 2] && all[n - 2] + 1.0 <= all[n - 1];
      SingleRun(q.pkts, n - 1);
    }
  }

  lemma SpannedIs(r: Range, n: nat, q: Queue, dp: Option<nat>, q': Queue, cfg: seq<StreamConfig>)
    requires n < |r.queues| == |cfg|
    ensures Spanned(SetQueue(r, n, q), n, dp, q', cfg)
            == var r' := SetQueue(r, n, q');
               if NeedsUpdate(q, dp, r.seekEnd) && cfg[n].eager then UpdateSeekRanges(r', cfg) else r'
  {
    hide NeedsUpdate, UpdateSeekRanges;
    assert SetQueue(SetQueue(r, n, q), n, q') == SetQueue(r, n, q');
  }

  // A keyframe arrives in the queue of stream n.
  lemma Fed(r: Range, cfg: seq<StreamConfig>, readers: seq<Option<nat>>, n: nat, ts: seq<real>, t: real)
    requires CacheOk(One(r, cfg, readers)) && |readers| == |cfg| == |r.queues| && n < |cfg|
    requires forall k :: 0 <= k < |cfg| ==> readers[k] == if |r.queues[k].pkts| > 0 then Some(r.queues[k].base) else None
    requires cfg[n].selected && cfg[n].preroll == 0.0 && Rising(ts + [t]) && r.queues[n] == Keys(ts)
    ensures var c := One(r, cfg, readers);
            var r' := SetQueue(r, n, Keys(ts + [t]));
            var moves := |ts| == 1 || (|ts| > 1 && (r.seekEnd == NOPTS || ts[|ts| - 2] <= r.seekEnd));
            && c.Shape()
            && Step(c, Deliver(n, Key(t)))
               == One(if moves && cfg[n].eager then UpdateSeekRanges(r', cfg) else r', cfg, readers[n := Some(0)])
  {
    var q, p := Keys(ts), Key(t);
    assert p.pts != NOPTS by {
      assert (ts + [t])[|ts|] == t && (|ts| > 0 ==> (ts + [t])[0] + 1.0 <= t);
    }
    assert q.End() == |ts| && q.base == 0;
    hide Keys, AdjustQueue, Rising, NeedsUpdate, UpdateSeekRanges, Append, Spanned, Step, CacheOk, QueuesShape;
    KeysFed(ts, t);
    KeysNeedUpdate(ts, t, r.seekEnd);
    Delivered(r, cfg, readers, n, p, Keys(ts + [t]));
    SpannedIs(r, n, Append(q, p), Some(|ts|), Keys(ts + [t]), cfg);
  }

  const VIDEO: StreamConfig := StreamConfig(true, true, true, 0.0)
  const SUBTITLES: StreamConfig := StreamConfig(true, false, false, 0.0)

  // --- Subtitles that are read ahead of the video ---

  // A video stream of which k keyframes have arrived, and no subtitles.
  function VideoRange(a: seq<real>, k: nat): Range
    requires k <= |a|
  {
    Range([Keys(a[..k]), Keys([])], if k > 2 then a[0] else NOPTS, if k > 2 then a[k - 2] else NOPTS, k > 1, false)
  }

  function VideoState(a: seq<real>, k: nat): State
    requires k <= |a|
  {
    One(VideoRange(a, k), [VIDEO, SUBTITLES], [if k > 0 then Some(0) else None, None])
  }

  lemma RisingPrefix(a: seq<real>, k: nat)
    requires Rising(a) && k <= |a|
    ensures Rising(a[..k])
  {
  }

  lemma VideoSpan(a: seq<real>, k: nat)
    requires Rising(a) && 0 < k < |a|
    ensures UpdateSeekRanges(SetQueue(VideoRange(a, k), 0, Keys(a[..k + 1])), [VIDEO, SUBTITLES]) == VideoRange(a, k + 1)
  {
    var b := a[..k + 1];
    var r := SetQueue(VideoRange(a, k), 0, Keys(b));
    assert r.queues == [Keys(b), Keys([])];
    TwoQueues(r, [VIDEO, SUBTITLES]);
    assert b[0] + 1.0 <= b[k] && (k > 1 ==> b[0] + 1.0 <= b[k - 1]);
  }

  lemma VideoReaders(a: seq<real>, k: nat)
    requires k <= |a|
    ensures var r := VideoRange(a, k);
            |r.queues| == 2 && r.queues[0] == Keys(a[..k]) && r.queues[1] == Keys([]) && r.queues[0].base == 0
            && |r.queues[0].pkts| == k && |r.queues[1].pkts| == 0
            && (k > 2 ==> r.seekEnd == a[k - 2]) && (k <= 2 ==> r.seekEnd == NOPTS)
    ensures k == 0 && |a| > 0 ==> SetQueue(VideoRange(a, 0), 0, Keys(a[..1])) == VideoRange(a, 1)
  {
    if k == 0 && |a| > 0 {
      assert [Keys(a[..0]), Keys([])][0 := Keys(a[..1])] == [Keys(a[..1]), Keys([])];
    }
  }

  lemma VideoFed(a: seq<real>, k: nat)
    requires Rising(a) && k < |a| && CacheOk(VideoState(a, k))
    ensures VideoState(a, k).Shape() && Step(VideoState(a, k), Deliver(0, Key(a[k]))) == VideoState(a, k + 1)
  {
    hide One, Keys, VideoRange, Step, UpdateSeekRanges, CacheOk, Rising;
    RisingPrefix(a, k + 1);
    assert a[..k + 1] == a[..k] + [a[k]];
    VideoReaders(a, k);
    var readers: seq<Option<nat>> := [if k > 0 then Some(0) else None, None];
    assert readers[0 := Some(0)] == [Some(0), None];
    if k > 0 {
      VideoSpan(a, k);
    }
    Fed(VideoRange(a, k), [VIDEO, SUBTITLES], readers, 0, a[..k], a[k]);
  }

  // ... and subtitles of which j have arrived.
  function SubtitleRange(a: seq<real>, b: seq<real>, j: nat): Range
    requires |a| > 2 && j <= |b|
  {
    Range([Keys(a), Keys(b[..j])], a[0], a[|a| - 2], true, false)
  }

  function SubtitleState(a: seq<real>, b: seq<real>, j: nat): State
    requires |a| > 2 && j <= |b|
  {
    One(SubtitleRange(a, b, j), [VIDEO, SUBTITLES], [Some(0), if j > 0 then Some(0) else None])
  }

  lemma KeysShape(ts: seq<real>)
    ensures var q := Keys(ts); q.base == 0 && |q.pkts| == |q.cum| == |ts| && (|ts| > 0 ==> q.pkts[0].size == 1)
  {
  }

  lemma SubtitleFed(a: seq<real>, b: seq<real>, j: nat)
    requires |a| > 2 && Rising(b) && j < |b| && CacheOk(SubtitleState(a, b, j))
    ensures SubtitleState(a, b, j).Shape()
    ensures Step(SubtitleState(a, b, j), Deliver(1, Key(b[j]))) == SubtitleState(a, b, j + 1)
  {
    hide One, Keys, Step, CacheOk, Rising, UpdateSeekRanges;
    var readers: seq<Option<nat>> := [Some(0), if j > 0 then Some(0) else None];
    assert readers[1 := Some(0)] == [Some(0), Some(0)];
    RisingPrefix(b, j + 1);
    assert b[..j + 1] == b[..j] + [b[j]];
    KeysShape(a);
    KeysShape(b[..j]);
    assert SetQueue(SubtitleRange(a, b, j), 1, Keys(b[..j + 1])) == SubtitleRange(a, b, j + 1);
    Fed(SubtitleRange(a, b, j), [VIDEO, SUBTITLES], readers, 1, b[..j], b[j]);
  }

  // The queue after its first keyframe was pruned.
  function AfterHead(ts: seq<real>): Queue {
    PruneQueue(Keys(ts), Some(1), true, 0.0).q
  }

  lemma AfterHeadIs(ts: seq<real>)
    requires Rising(ts) && |ts| > 1
    ensures PruneQueue(Keys(ts), Some(1), true, 0.0).kfPruned
    ensures var q := AfterHead(ts);
            && q.pkts == KeyPackets(ts)[1..] && q.base == 1 && !q.isBof && !q.isEof && q.index == KeyEntries(ts)[1..]
            && q.seekStart == ts[1] && q.seekEnd == ts[|ts| - 2] && q.lastPruned == ts[0]
  {
    var q := Keys(ts);
    var r := RemoveHead(q);
    assert PruneRun(r, Some(1), true, false, true) == Pruned(r, true);
    assert PruneRun(q, Some(1), true, false, false) == Pruned(r, true);
    assert NextKeyframe(r.pkts, 0) == 0;
    assert ts[0] + 1.0 <= ts[1];
    SingleRun(r.pkts, 0);
  }

  // Pruning a subtitle makes the range start behind it, pruning video before
  // that does not change the range.
  function ReadState(a: seq<real>, b: seq<real>, videoRead: bool): State
    requires |a| > 2 && |b| > 1
  {
    One(Range([if videoRead then AfterHead(a) else Keys(a), AfterHead(b)], b[0] + 0.1, a[|a| - 2], true, false),
        [VIDEO, SUBTITLES], [Some(if videoRead then 1 else 0), Some(1)])
  }

  lemma SpanAfterSubtitle(a: seq<real>, b: seq<real>)
    requires |a| > 2 && |b| > 1 && Rising(a) && Rising(b) && a[0] <= b[0] + 0.1 < a[|a| - 2]
    ensures UpdateSeekRanges(SetQueue(SubtitleRange(a, b, |b|), 1, AfterHead(b)), [VIDEO, SUBTITLES])
            == Range([Keys(a), AfterHead(b)], b[0] + 0.1, a[|a| - 2], true, false)
  {
    var r := SetQueue(SubtitleRange(a, b, |b|), 1, AfterHead(b));
    assert b[..|b|] == b;
    AfterHeadIs(b);
    hide AfterHead;
    assert r.queues == [Keys(a), AfterHead(b)];
    TwoQueues(r, [VIDEO, SUBTITLES]);
    assert a[0] + 1.0 <= a[|a| - 2] || |a| == 2;
  }

  lemma SubtitleReadStep(a: seq<real>, b: seq<real>)
    requires |a| > 2 && |b| > 1 && Rising(a) && Rising(b) && CacheOk(SubtitleState(a, b, |b|))
    requires 0.0 <= a[0] < b[1] && a[0] <= b[0] + 0.1 < a[|a| - 2]
    ensures SubtitleState(a, b, |b|).Shape() && Step(SubtitleState(a, b, |b|), Read(1)) == ReadState(a, b, false)
  {
    hide One, Keys, Step, CacheOk, UpdateSeekRanges, PruneQueue, Rising;
    var cfg, r := [VIDEO, SUBTITLES], SubtitleRange(a, b, |b|);
    assert b[..|b|] == b;
    AfterHeadIs(b);
    SpanAfterSubtitle(a, b);
    KeysShape(a);
    KeysShape(b);
    var readers: seq<Option<nat>> := [Some(0), Some(0)];
    assert readers[1 := Some(1)] == [Some(0), Some(1)];
    ReadAndPruned(r, cfg, readers, 1);
  }

  lemma VideoReadStep(a: seq<real>, b: seq<real>)
    requires |a| > 2 && |b| > 1 && Rising(a) && Rising(b) && CacheOk(ReadState(a, b, false))
    requires 0.0 <= a[1] <= b[0] + 0.1
    ensures ReadState(a, b, false).Shape() && Step(ReadState(a, b, false), Read(0)) == ReadState(a, b, true)
  {
    hide One, Keys, Step, CacheOk, UpdateSeekRanges, PruneQueue, Rising;
    var cfg := [VIDEO, SUBTITLES];
    var r := Range([Keys(a), AfterHead(b)], b[0] + 0.1, a[|a| - 2], true, false);
    AfterHeadIs(a);
    AfterHeadIs(b);
    KeysShape(a);
    var readers: seq<Option<nat>> := [Some(0), Some(1)];
    assert readers[0 := Some(1)] == [Some(1), Some(1)];
    assert SetQueue(r, 0, AfterHead(a)).queues == [AfterHead(a), AfterHead(b)];
    assert ReadState(a, b, false) == One(r, cfg, readers);
    ReadAndPruned(r, cfg, readers, 0);
  }

  // --- Whole runs ---

  lemma {:induction false} RunThen(c: State, ops: seq<Op>, op: Op)
    requires CacheOk(c) && c.Shape()
    ensures CacheOk(Run(c, ops)) && Run(c, ops).Shape() && Run(c, ops + [op]) == Step(Run(c, ops), op)
    decreases |ops|
  {
    hide CacheOk, Step;
    RunKeepsCache(c, ops);
    StepOk(c, op);
    if |ops| == 0 {
      assert ops + [op] == [op] && [op][1..] == [];
    } else {
      StepOk(c, ops[0]);
      RunThen(Step(c, ops[0]), ops[1..], op);
      assert (ops + [op])[1..] == ops[1..] + [op];
    }
  }

  // All readers and queues at the beginning of the file.
  lemma MarkedInitial(cfg: seq<StreamConfig>)
    requires forall n :: 0 <= n < |cfg| ==> cfg[n].selected
    ensures var c := Initial(cfg, NO_BACKBUFFER);
            && CacheOk(c) && c.Shape() && CacheOk(Run(c, [MarkBof]))
            && Run(c, [MarkBof]) == One(Range(seq(|cfg|, n => Keys([])), NOPTS, NOPTS, false, false), cfg,
                                        seq(|cfg|, n => None))
  {
    var c := Initial(cfg, NO_BACKBUFFER);
    InitialOk(cfg, NO_BACKBUFFER);
    RunThen(c, [], MarkBof);
    assert [] + [MarkBof] == [MarkBof];
    var e := One(Range(seq(|cfg|, n => Keys([])), NOPTS, NOPTS, false, false), cfg, seq(|cfg|, n => None));
    assert Keys([]) == NewQueue().(isBof := true) by {
      assert seq(0, i => i) == [] && KeyPackets([]) == [] && KeyEntries([]) == [];
    }
    assert MarkBofStep(c).ranges[0].queues == e.ranges[0].queues;
    assert MarkBofStep(c).streams == e.streams;
    RunKeepsCache(c, [MarkBof]);
  }

  function Deliveries(n: nat, ts: seq<real>): (ops: seq<Op>)
    ensures |ops| == |ts|
  {
    seq(|ts|, i requires 0 <= i < |ts| => Deliver(n, Key(ts[i])))
  }

  lemma {:induction false} VideoRun(c: State, ops: seq<Op>, a: seq<real>, k: nat)
    requires CacheOk(c) && c.Shape() && Rising(a) && k <= |a| && Run(c, ops) == VideoState(a, 0)
    ensures Run(c, ops + Deliveries(0, a)[..k]) == VideoState(a, k)
    decreases k
  {
    hide CacheOk, Step, Rising, VideoState;
    if k == 0 {
      assert ops + Deliveries(0, a)[..0] == ops;
    } else {
      VideoRun(c, ops, a, k - 1);
      RunThen(c, ops + Deliveries(0, a)[..k - 1], Deliver(0, Key(a[k - 1])));
      VideoFed(a, k - 1);
      assert ops + Deliveries(0, a)[..k - 1] + [Deliver(0, Key(a[k - 1]))] == ops + Deliveries(0, a)[..k];
    }
  }

  lemma {:induction false} SubtitleRun(c: State, ops: seq<Op>, a: seq<real>, b: seq<real>, j: nat)
    requires CacheOk(c) && c.Shape() && |a| > 2 && Rising(b) && j <= |b| && Run(c, ops) == SubtitleState(a, b, 0)
    ensures Run(c, ops + Deliveries(1, b)[..j]) == SubtitleState(a, b, j)
    decreases j
  {
    hide CacheOk, Step, Rising, SubtitleState;
    if j == 0 {
      assert ops + Deliveries(1, b)[..0] == ops;
    } else {
      SubtitleRun(c, ops, a, b, j - 1);
      RunThen(c, ops + Deliveries(1, b)[..j - 1], Deliver(1, Key(b[j - 1])));
      SubtitleFed(a, b, j - 1);
      assert ops + Deliveries(1, b)[..j - 1] + [Deliver(1, Key(b[j - 1]))] == ops + Deliveries(1, b)[..j];
    }
  }

  // Video at the times a, subtitles at the times b, both from the beginning of
  // the file. The first subtitle is pruned, and the range starts behind it. Then
  // the first video keyframe is pruned, and the range is not updated, as the next
  // one is still before its start. The range goes on to claim the beginning of
  // the file: a seek to any position before the next keyframe is taken to be
  // possible, and ends up after the position.
  lemma StaleBofMisses(a: seq<real>, b: seq<real>, pts: real)
    requires Rising(a) && Rising(b) && |a| > 2 && |b| > 1
    requires a[1] <= b[0] + 0.1 < a[|a| - 2] && a[0] <= pts < a[1]
    ensures var c := Initial([VIDEO, SUBTITLES], NO_BACKBUFFER);
            var ops := [MarkBof] + Deliveries(0, a) + Deliveries(1, b) + [Read(1)] + [Read(0)];
            && CacheOk(c) && c.Shape() && |Run(c, ops).ranges| == 1
            && var r := Run(c, ops).ranges[0];
               && |r.queues| == 2 && InRange(r, pts) && !HonestBof(r, [VIDEO, SUBTITLES])
               && QueueTarget(r.queues[0], VIDEO, pts, false) == Some(0)
               && |r.queues[0].pkts| > 0 && RunMin(r.queues[0].pkts, 0) == a[1] > pts
  {
    hide QueueTarget, Run, CacheOk, Initial, RunMin, ReadState, InRange, HonestBof;
    MarkedInitial([VIDEO, SUBTITLES]);
    StaleRun(Initial([VIDEO, SUBTITLES], NO_BACKBUFFER), a, b);
    StaleRange(a, b, pts);
  }

  lemma StaleRange(a: seq<real>, b: seq<real>, pts: real)
    requires Rising(a) && Rising(b) && |a| > 2 && |b| > 1
    requires a[1] <= b[0] + 0.1 < a[|a| - 2] && a[0] <= pts < a[1]
    ensures |ReadState(a, b, true).ranges| == 1
    ensures var r := ReadState(a, b, true).ranges[0];
            && |r.queues| == 2 && InRange(r, pts) && !HonestBof(r, [VIDEO, SUBTITLES])
            && QueueTarget(r.queues[0], VIDEO, pts, false) == Some(0)
            && |r.queues[0].pkts| > 0 && RunMin(r.queues[0].pkts, 0) == a[1] > pts
  {
    AfterHeadIs(a);
    AfterHeadIs(b);
    assert a[0] + 1.0 <= a[1];
    SeekFindsHead(a, pts);
    hide AfterHead, QueueTarget, RunMin;
    assert !ReadState(a, b, true).ranges[0].queues[0].isBof && Counts([VIDEO, SUBTITLES][0]);
  }

  lemma StaleRun(c: State, a: seq<real>, b: seq<real>)
    requires Rising(a) && Rising(b) && |a| > 2 && |b| > 1 && a[1] <= b[0] + 0.1 < a[|a| - 2]
    requires c == Initial([VIDEO, SUBTITLES], NO_BACKBUFFER) && CacheOk(c) && c.Shape()
    ensures Run(c, [MarkBof] + Deliveries(0, a) + Deliveries(1, b) + [Read(1)] + [Read(0)]) == ReadState(a, b, true)
  {
    hide VideoState, SubtitleState, ReadState, CacheOk, Step, Initial, Run;
    var ops := [MarkBof];
    VideoBegins(c, a);
    VideoRun(c, ops, a, |a|);
    ops := ops + Deliveries(0, a);
    assert Deliveries(0, a)[..|a|] == Deliveries(0, a);
    SubtitlesBegin(a, b);
    assert a[0] + 1.0 <= a[1] && b[0] + 1.0 <= b[1];
    hide Rising;
    SubtitleRun(c, ops, a, b, |b|);
    ops := ops + Deliveries(1, b);
    assert Deliveries(1, b)[..|b|] == Deliveries(1, b);
    RunThen(c, ops, Read(1));
    SubtitleReadStep(a, b);
    RunThen(c, ops + [Read(1)], Read(0));
    VideoReadStep(a, b);
  }

  lemma VideoBegins(c: State, a: seq<real>)
    requires c == Initial([VIDEO, SUBTITLES], NO_BACKBUFFER) && CacheOk(c) && c.Shape()
    ensures Run(c, [MarkBof]) == VideoState(a, 0)
  {
    hide Run, CacheOk;
    MarkedInitial([VIDEO, SUBTITLES]);
    assert a[..0] == [];
    assert Run(c, [MarkBof]).ranges[0].queues == VideoState(a, 0).ranges[0].queues;
    assert Run(c, [MarkBof]).streams == VideoState(a, 0).streams;
  }

  lemma SubtitlesBegin(a: seq<real>, b: seq<real>)
    requires |a| > 2
    ensures VideoState(a, |a|) == SubtitleState(a, b, 0)
  {
    assert a[..|a|] == a && b[..0] == [];
  }

  // Nothing is left at or before the position.
  lemma SeekFindsHead(a: seq<real>, pts: real)
    requires Rising(a) && |a| > 2 && pts < a[1]
    ensures QueueTarget(AfterHead(a), VIDEO, pts, false) == Some(0)
    ensures |AfterHead(a).pkts| > 0 && RunMin(AfterHead(a).pkts, 0) == a[1]
  {
    AfterHeadIs(a);
    var q := AfterHead(a);
    hide AfterHead, Scan;
    forall k: nat | k < |q.pkts|
      ensures RunMin(q.pkts, k) == a[k + 1] > pts && Candidate(q.pkts, k)
    {
      SingleRun(q.pkts, k);
      assert k > 0 ==> a[1] + 1.0 <= a[k + 1];
      assert a[0] + 1.0 <= a[1];
    }
    hide RunMin;
    forall i | 0 <= i < |q.index|
      ensures q.index[i].pts > pts
    {
      assert q.index[i].pts == a[i + 1];
      assert i > 0 ==> a[1] + 1.0 <= a[i + 1];
    }
    assert LastAtMost(q.index, pts) == -1;
    BackwardScanFinds(q.pkts, 0, pts);
    assert Candidate(q.pkts, 0);
  }

  // --- Audio that does not begin with a keyframe ---

  const AUDIO: StreamConfig := StreamConfig(true, true, false, 0.0)

  // The audio queue after k packets, of which the first is no keyframe.
  function Late(k: nat): Queue {
    if k == 0 then Keys([])
    else if k == 1 then Append(Late(0), At(4.0, 0, false))
    else if k == 2 then Append(Late(1), At(5.0, 1, true)).(kfLatest := Some(1))
    else Append(Late(2), At(6.0, 2, true)).(kfLatest := Some(2), seekStart := 5.0, seekEnd := 5.0,
                                            index := [IndexEntry(5.0, 1)], indexSize := 128)
  }

  lemma LateFed(k: nat)
    requires k < 3
    ensures var q, p := Late(k), At(4.0 + k as real, k, k > 0);
            && AdjustQueue(Append(q, p), Some(k), 0.0) == Late(k + 1)
            && Append(q, p).correctDts && Append(q, p).correctPos
            && q.base == 0 && |q.pkts| == |q.cum| == k && q.isBof && !q.isEof
            && (forall rangeEnd :: NeedsUpdate(Append(q, p), Some(k), rangeEnd) == (k == 2) || rangeEnd != NOPTS)
  {
    var q, p := Late(k), At(4.0 + k as real, k, k > 0);
    if k < 2 {
      FirstFed(q, p);
    } else {
      KeyframeFed(q, p);
      SingleRun(q.pkts + [p], 1);
    }
  }

  function LateState(k: nat): State {
    One(Range([Keys([]), Late(k)], NOPTS, NOPTS, k == 3, false), [VIDEO, AUDIO], [None, if k > 0 then Some(0) else None])
  }

  lemma LateStep(k: nat)
    requires k < 3 && CacheOk(LateState(k))
    ensures LateState(k).Shape()
    ensures Step(LateState(k), Deliver(1, At(4.0 + k as real, k, k > 0))) == LateState(k + 1)
  {
    hide One, Keys, Late, Step, CacheOk, UpdateSeekRanges, AdjustQueue, Append, NeedsUpdate, Spanned, QueuesShape;
    var cfg, q, p := [VIDEO, AUDIO], Late(k), At(4.0 + k as real, k, k > 0);
    var r := Range([Keys([]), q], NOPTS, NOPTS, false, false);
    var readers: seq<Option<nat>> := [None, if k > 0 then Some(0) else None];
    assert readers[1 := Some(0)] == [None, Some(0)];
    LateFed(k);
    KeysShape([]);
    assert SetQueue(r, 1, Late(k + 1)).queues == [Keys([]), Late(k + 1)];
    if k == 2 {
      LateSpan(r);
    }
    Delivered(r, cfg, readers, 1, p, Late(k + 1));
    SpannedIs(r, 1, Append(q, p), Some(k), Late(k + 1), cfg);
  }

  // There is no video yet.
  lemma LateSpan(r: Range)
    requires |r.queues| == 2 && r.queues[0] == Keys([])
    ensures UpdateSeekRanges(SetQueue(r, 1, Late(3)), [VIDEO, AUDIO])
            == Range([Keys([]), Late(3)], NOPTS, NOPTS, true, false)
  {
    assert SetQueue(r, 1, Late(3)).queues == [Keys([]), Late(3)];
    TwoQueues(SetQueue(r, 1, Late(3)), [VIDEO, AUDIO]);
  }

  // Three keyframes of video.
  function MixedRange(k: nat): Range {
    var a := [0.0, 6.0, 7.0];
    Range([Keys(if k < 3 then a[..k] else a), Late(3)], if k < 3 then NOPTS else 0.0, if k < 3 then NOPTS else 5.0,
          true, false)
  }

  function MixedState(k: nat): State {
    One(MixedRange(k), [VIDEO, AUDIO], [if k > 0 then Some(0) else None, Some(0)])
  }

  lemma MixedSpan(k: nat)
    requires k < 3
    ensures var r, b := MixedRange(k), if k == 2 then [0.0, 6.0, 7.0] else [0.0, 6.0, 7.0][..k + 1];
            && SetQueue(r, 0, Keys(b)).queues == MixedRange(k + 1).queues
            && (k == 0 ==> SetQueue(r, 0, Keys(b)) == MixedRange(1))
            && (k > 0 ==> UpdateSeekRanges(SetQueue(r, 0, Keys(b)), [VIDEO, AUDIO]) == MixedRange(k + 1))
  {
    var r, b := MixedRange(k), if k == 2 then [0.0, 6.0, 7.0] else [0.0, 6.0, 7.0][..k + 1];
    assert SetQueue(r, 0, Keys(b)).queues == [Keys(b), Late(3)];
    if k > 0 {
      TwoQueues(SetQueue(r, 0, Keys(b)), [VIDEO, AUDIO]);
    }
  }

  lemma MixedStep(k: nat)
    requires k < 3 && CacheOk(MixedState(k))
    ensures MixedState(k).Shape()
    ensures Step(MixedState(k), Deliver(0, Key([0.0, 6.0, 7.0][k]))) == MixedState(k + 1)
  {
    hide One, Keys, Late, Step, CacheOk, UpdateSeekRanges;
    var a := [0.0, 6.0, 7.0];
    var b := if k == 2 then a else a[..k + 1];
    var readers: seq<Option<nat>> := [if k > 0 then Some(0) else None, Some(0)];
    assert readers[0 := Some(0)] == [Some(0), Some(0)];
    assert a[..3] == a && a[..k] + [a[k]] == b;
    assert Rising(a);
    RisingPrefix(a, k + 1);
    KeysShape(a[..k]);
    LateShape();
    MixedSpan(k);
    Fed(MixedRange(k), [VIDEO, AUDIO], readers, 0, a[..k], a[k]);
  }

  lemma LateShape()
    ensures var q := Late(3); q.base == 0 && |q.pkts| == |q.cum| == 3 && !q.pkts[0].keyframe && q.pkts[0].size == 1
  {
  }

  // The audio does not begin with a keyframe. Reading its first packet makes the
  // range no longer cover the start of the audio queue: the position 2.0 is taken
  // to be within the range, and the audio is sought to 5.0.
  lemma BofPruneMisses()
    ensures var cfg := [VIDEO, AUDIO];
            var c := Initial(cfg, NO_BACKBUFFER);
            var ops := [MarkBof] + LateDeliveries() + Deliveries(0, [0.0, 6.0, 7.0]);
            && CacheOk(c) && c.Shape()
            && |Run(c, ops).ranges| == |Run(c, ops + [Read(1)]).ranges| == 1
            && var r, r' := Run(c, ops).ranges[0], Run(c, ops + [Read(1)]).ranges[0];
               && |r.queues| == |r'.queues| == 2
               && StartsCovered(r, cfg) && HiddenStart(r, 1, cfg) && !StartsCovered(r', cfg)
               && r'.seekStart <= 2.0 <= r'.seekEnd
               && QueueTarget(r'.queues[1], AUDIO, 2.0, false) == Some(0) && RunMin(r'.queues[1].pkts, 0) == 5.0
  {
    var cfg := [VIDEO, AUDIO];
    var c := Initial(cfg, NO_BACKBUFFER);
    hide Run, Step, QueueTarget, RunMin, CacheOk, MixedRange, AfterLate, StartsCovered, HiddenStart, Initial;
    MarkedInitial(cfg);
    LateRun(c);
    LateCover();
    LateSeek();
  }

  lemma LateCover()
    ensures var cfg, r, r' := [VIDEO, AUDIO], MixedRange(3), AfterLate();
            && |r.queues| == |r'.queues| == 2 && r'.queues[1] == RemoveHead(Late(3))
            && StartsCovered(r, cfg) && HiddenStart(r, 1, cfg) && !StartsCovered(r', cfg)
            && r'.seekStart == 0.0 && r'.seekEnd == 5.0
  {
    assert MixedRange(3).queues == [Keys([0.0, 6.0, 7.0]), Late(3)];
    assert AfterLate().queues == [Keys([0.0, 6.0, 7.0]), RemoveHead(Late(3))];
    assert Counts([VIDEO, AUDIO][1]) && !AfterLate().queues[1].isBof;
  }

  function LateDeliveries(): seq<Op> {
    [Deliver(1, At(4.0, 0, false)), Deliver(1, At(5.0, 1, true)), Deliver(1, At(6.0, 2, true))]
  }

  function AfterLate(): Range {
    SetQueue(MixedRange(3), 1, RemoveHead(Late(3)))
  }

  lemma LateRun(c: State)
    requires c == Initial([VIDEO, AUDIO], NO_BACKBUFFER) && CacheOk(c) && c.Shape()
    ensures var ops := [MarkBof] + LateDeliveries() + Deliveries(0, [0.0, 6.0, 7.0]);
            && Run(c, ops) == MixedState(3)
            && Run(c, ops + [Read(1)]) == One(AfterLate(), [VIDEO, AUDIO], [Some(0), Some(1)])
  {
    hide CacheOk, Step, LateState, MixedState, AfterLate, MixedRange;
    MarkedInitial([VIDEO, AUDIO]);
    LateBegins(c);
    var ops := [MarkBof];
    var late := LateDeliveries();
    RunThen(c, ops, late[0]);
    LateStep(0);
    RunThen(c, ops + [late[0]], late[1]);
    LateStep(1);
    RunThen(c, ops + [late[0]] + [late[1]], late[2]);
    LateStep(2);
    assert ops + [late[0]] + [late[1]] + [late[2]] == ops + late;
    ops := ops + late;
    MixedBegins();
    var mixed := Deliveries(0, [0.0, 6.0, 7.0]);
    RunThen(c, ops, mixed[0]);
    MixedStep(0);
    RunThen(c, ops + [mixed[0]], mixed[1]);
    MixedStep(1);
    RunThen(c, ops + [mixed[0]] + [mixed[1]], mixed[2]);
    MixedStep(2);
    assert ops + [mixed[0]] + [mixed[1]] + [mixed[2]] == ops + mixed;
    RunThen(c, ops + mixed, Read(1));
    LateRead();
  }

  lemma LateBegins(c: State)
    requires c == Initial([VIDEO, AUDIO], NO_BACKBUFFER) && CacheOk(c) && c.Shape()
    ensures Run(c, [MarkBof]) == LateState(0)
  {
    hide Run, CacheOk;
    MarkedInitial([VIDEO, AUDIO]);
    assert Run(c, [MarkBof]).ranges[0].queues == LateState(0).ranges[0].queues;
    assert Run(c, [MarkBof]).streams == LateState(0).streams;
  }

  lemma MixedBegins()
    ensures LateState(3) == MixedState(0)
  {
    assert [0.0, 6.0, 7.0][..0] == [];
  }

  lemma LateRead()
    requires CacheOk(MixedState(3)) && MixedState(3).Shape()
    ensures Step(MixedState(3), Read(1)) == One(AfterLate(), [VIDEO, AUDIO], [Some(0), Some(1)])
  {
    hide One, Keys, Late, Step, CacheOk, UpdateSeekRanges, PruneQueue;
    KeysShape([0.0, 6.0, 7.0]);
    LateShape();
    LatePruned();
    var readers: seq<Option<nat>> := [Some(0), Some(0)];
    assert readers[1 := Some(1)] == [Some(0), Some(1)];
    ReadAndPruned(MixedRange(3), [VIDEO, AUDIO], readers, 1);
  }

  lemma LatePruned()
    ensures PruneQueue(Late(3), Some(1), true, 0.0) == Pruned(RemoveHead(Late(3)), false)
  {
    var q := RemoveHead(Late(3));
    assert PruneRun(q, Some(1), true, true, false) == Pruned(q, false);
  }

  lemma LateSeek()
    ensures var q := RemoveHead(Late(3));
            QueueTarget(q, AUDIO, 2.0, false) == Some(0) && |q.pkts| > 0 && RunMin(q.pkts, 0) == 5.0
  {
    var q := RemoveHead(Late(3));
    assert q.pkts == [At(5.0, 1, true), At(6.0, 2, true)] && q.index == [IndexEntry(5.0, 1)];
    SingleRun(q.pkts, 0);
    SingleRun(q.pkts, 1);
    hide Late, Scan, RunMin;
    assert LastAtMost(q.index, 2.0) == -1;
    BackwardScanFinds(q.pkts, 0, 2.0);
    assert Candidate(q.pkts, 0);
  }
}
