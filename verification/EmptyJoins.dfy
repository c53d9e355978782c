// What a join costs when the current range has an empty queue that is marked as
// ended. read_packet() marks streams as ended that have no packet to read when the
// queues of the others have grown too large.

module EmptyJoins {
  import opened Timestamps
  import opened Wrappers
  import opened Packets
  import opened RingIndex
  import opened SeekTarget
  import opened Queues
  import opened Ranges
  import opened Cache
  import opened CacheInvariants
  import opened Pruning
  import opened CacheRuns
  import opened ReaderRuns
  import opened FileBeginning
  import opened FailingRuns

  const BOTH: seq<StreamConfig> := [VIDEO, AUDIO]

  // Nothing has to be pruned, and reading ahead is limited to 20 bytes.
  const ROOMY: Options := Options(20, 1000000, false, true)

  // Keyframes at the given times, from the beginning of the file on or not.
  function KeysFrom(ts: seq<real>, bof: bool): Queue {
    Keys(ts).(isBof := bof)
  }

  function Cached(older: seq<Range>, r: Range, video: Option<nat>, audio: Option<nat>, pts: real): State {
    State(older + [r], BOTH, [Reader(video), Reader(audio)], false, pts, ROOMY)
  }

  // --- Deliveries that fit into the budget and join nothing ---

  // The state after packet p arrived in stream n, and made its queue q.
  function Arrived(c: State, n: nat, p: Packet, q: Queue): State
    requires c.Shape() && n < |c.cfg|
  {
    var r := c.ranges[c.Last()];
    var dp := Some(r.queues[n].End());
    WithStream(WithRange(c, c.Last(), Spanned(SetQueue(r, n, Append(r.queues[n], p)), n, dp, q, c.cfg)), n,
               Reader(Some(r.queues[n].base)))
  }

  ghost predicate Takes(c: State, n: nat, p: Packet, q: Queue)
    requires c.Shape() && n < |c.cfg|
  {
    && c.cfg[n].selected && c.cfg[n].preroll == 0.0 && p.len > 0 && Stored(p, c.cfg[n]) == p
    && !c.seeking && c.opts.seekableCache
    && var r := c.ranges[c.Last()];
    && c.streams[n] == Reader(if |r.queues[n].pkts| > 0 then Some(r.queues[n].base) else None)
    && Append(r.queues[n], p).correctDts && Append(r.queues[n], p).correctPos
    && q == AdjustQueue(Append(r.queues[n], p), Some(r.queues[n].End()), 0.0)
  }

  lemma Added(c: State, n: nat, p: Packet, q: Queue)
    requires c.Shape() && n < |c.cfg| && Takes(c, n, p, q)
    requires var c' := Arrived(c, n, p, q); c'.Shape() && ChooseNext(c'.ranges, c'.Last()) == None
    ensures AddPacket(c, n, p) == Arrived(c, n, p, q) && Appends(c, n, p)
  {
    var r := c.ranges[c.Last()];
    var dp := Some(r.queues[n].End());
    var c1 := AppendPacket(c, n, p);
    AppendShape(c, n, p);
    var r1 := SetQueue(r, n, Append(r.queues[n], p));
    assert c1 == WithStream(WithRange(c, c.Last(), r1), n, Reader(Some(r.queues[n].base)));
    hide AdjustQueue, Append, NeedsUpdate, UpdateSeekRanges, ChooseNext;
    assert WithRange(c1, c.Last(), Spanned(r1, n, dp, q, c.cfg)) == Arrived(c, n, p, q);
    assert AdjustSeekRange(c1, n, dp) == Arrived(c, n, p, q);
  }

  lemma Arrives(c: State, n: nat, p: Packet, q: Queue)
    requires CacheOk(c) && c.Shape() && n < |c.cfg| && Takes(c, n, p, q)
    requires var c' := Arrived(c, n, p, q);
             c'.Shape() && ChooseNext(c'.ranges, c'.Last()) == None && (CacheOk(c') ==> WithinBudget(c'))
    ensures Step(c, Deliver(n, p)) == Arrived(c, n, p, q)
  {
    hide Takes, Arrived, AddPacket, WithinBudget, ChooseNext, CacheOk;
    AddPacketOk(c, n, p);
    OkHasShape(AddPacket(c, n, p));
    Added(c, n, p, q);
  }

  lemma {:induction false} NothingToJoin(rs: seq<Range>, n: nat)
    requires n < |rs| && rs[|rs| - 1].seekStart == NOPTS && rs[|rs| - 1].seekEnd == NOPTS
    ensures ChooseNext(rs, n) == None
  {
    if n > 0 {
      NothingToJoin(rs, n - 1);
    }
  }

  ghost predicate Small(r: Range) {
    |r.queues| == 2 && QueueBytes(r.queues[0]) <= 10000 && QueueBytes(r.queues[1]) <= 10000
  }

  lemma SmallRange(r: Range)
    requires Small(r)
    ensures RangeBytes(r) <= 20000
  {
    hide QueueBytes;
    var qs := r.queues;
    assert qs[..1] == [qs[0]] && [qs[0]][..0] == [];
    assert QueuesBytes([qs[0]]) == QueueBytes(qs[0]);
  }

  lemma {:induction false} SmallTotal(rs: seq<Range>)
    requires forall i :: 0 <= i < |rs| ==> Small(rs[i])
    ensures TotalBytes(rs) <= |rs| * 20000
    decreases |rs|
  {
    hide Small;
    if |rs| > 0 {
      SmallTotal(rs[..|rs| - 1]);
      SmallRange(rs[|rs| - 1]);
    }
  }

  lemma InBudget(c: State)
    requires CacheOk(c) && c.Shape() && c.opts == ROOMY && |c.ranges| <= 2
    requires forall i :: 0 <= i < |c.ranges| ==> Small(c.ranges[i])
    ensures WithinBudget(c)
  {
    ForwardWithinTotal(c);
    SmallTotal(c.ranges);
    hide ForwardTotal, CacheOk, TotalBytes, Small;
  }

  lemma KeysSmall(ts: seq<real>, bof: bool)
    requires |ts| < 100
    ensures QueueBytes(KeysFrom(ts, bof)) <= 10000
  {
  }

  // A keyframe arrives.
  lemma KeysFromFed(ts: seq<real>, t: real, bof: bool)
    requires Rising(ts + [t])
    ensures var q, p := KeysFrom(ts, bof), Key(t);
            && q.End() == |ts| && q.base == 0 && |q.pkts| == |ts|
            && AdjustQueue(Append(q, p), Some(|ts|), 0.0) == KeysFrom(ts + [t], bof)
            && Append(q, p).correctDts && Append(q, p).correctPos
            && p.pts != NOPTS && p.pts >= 0.0
            && forall rangeEnd :: NeedsUpdate(Append(q, p), Some(|ts|), rangeEnd)
                 == (|ts| == 1 || (|ts| > 1 && (rangeEnd == NOPTS || ts[|ts| - 2] <= rangeEnd)))
  {
    var q, p := Keys(ts), Key(t);
    KeysFed(ts, t);
    forall rangeEnd: real
      ensures NeedsUpdate(Append(KeysFrom(ts, bof), p), Some(|ts|), rangeEnd)
              == (|ts| == 1 || (|ts| > 1 && (rangeEnd == NOPTS || ts[|ts| - 2] <= rangeEnd)))
    {
      KeysNeedUpdate(ts, t, rangeEnd);
      assert NeedsUpdate(Append(KeysFrom(ts, bof), p), Some(|ts|), rangeEnd) == NeedsUpdate(Append(q, p), Some(|ts|), rangeEnd);
    }
    assert AdjustQueue(Append(KeysFrom(ts, bof), p), Some(|ts|), 0.0) == AdjustQueue(Append(q, p), Some(|ts|), 0.0).(isBof := bof);
    assert (ts + [t])[|ts|] == t && (|ts| > 0 ==> (ts + [t])[0] + 1.0 <= t);
  }

  // The span of a range with video and audio, of which the video is not at its
  // end.
  lemma BothSpan(r: Range)
    requires |r.queues| == 2 && !r.queues[0].isEof
    ensures var a, b := r.queues[0], r.queues[1];
            var bof := a.isBof && b.isBof;
            var start := if bof then PtsMin(a.seekStart, b.seekStart)
                         else PtsMax(if a.isBof then NOPTS else a.seekStart, if b.isBof then NOPTS else b.seekStart);
            var end := if b.isEof then a.seekEnd else PtsMin(a.seekEnd, b.seekEnd);
            UpdateSeekRanges(r, BOTH)
            == if BadSpan(a) then Range(r.queues, NOPTS, NOPTS, a.isBof, false)
               else if BadSpan(b) || start >= end then Range(r.queues, NOPTS, NOPTS, bof, false)
               else Range(r.queues, start, end, bof, false)
  {
    var qs, cfg := r.queues, BOTH;
    assert Counts(cfg[0]) && Counts(cfg[1]);
    assert MinBofStart(qs, cfg, 0) == NOPTS && MinEnd(qs, cfg, 0) == NOPTS && MaxStart(qs, cfg, 0) == NOPTS;
    assert MinBofStart(qs, cfg, 1) == (if qs[0].isBof then qs[0].seekStart else NOPTS);
    assert MaxStart(qs, cfg, 1) == (if qs[0].isBof then NOPTS else qs[0].seekStart);
    assert MinEnd(qs, cfg, 1) == qs[0].seekEnd;
    assert AllBof(qs, cfg, 1) == qs[0].isBof && AllBof(qs, cfg, 2) == (qs[0].isBof && qs[1].isBof);
    assert !AllEof(qs, cfg, 1) && !AllEof(qs, cfg, 2);
    assert FirstBad(qs, cfg, 2) == 2;
    assert FirstBad(qs, cfg, 1) == if BadSpan(qs[1]) then 1 else 2;
    var start := if AllBof(qs, cfg, 2) then MinBofStart(qs, cfg, 2) else MaxStart(qs, cfg, 2);
    assert SparseStart(qs, cfg, start, 0) == start == SparseStart(qs, cfg, start, 1);
  }

  // --- What the demuxer does ---

  ghost predicate GoesTo(c: State, ops: seq<Op>, n: nat, w: seq<Packet>, at: nat)
    requires CacheOk(c) && c.Shape() && n < |c.cfg|
  {
    exists ats: seq<nat> :: |ats| > 0 && ats[|ats| - 1] == at && Follows(c, ops, n, w, ats)
  }

  // A run that a demuxer can do that has the packets w in both streams. It comes to
  // the positions p0 and p1.
  ghost predicate Reaches(c: State, ops: seq<Op>, w: seq<Packet>, p0: nat, p1: nat, d: State) {
    && CacheOk(c) && c.Shape() && c.cfg == BOTH
    && Run(c, ops) == d && CacheOk(d) && d.Shape() && d.cfg == BOTH
    && GoesTo(c, ops, 0, w, p0) && GoesTo(c, ops, 1, w, p1)
  }

  lemma {:induction false} FollowsThen(c: State, ops: seq<Op>, n: nat, w: seq<Packet>, ats: seq<nat>, op: Op, at: nat)
    requires CacheOk(c) && c.Shape() && n < |c.cfg| && |ats| > 0 && Follows(c, ops, n, w, ats)
    requires n < |Run(c, ops).cfg| && Moves(Run(c, ops), op, n, w, ats[|ats| - 1], at)
    ensures Follows(c, ops + [op], n, w, ats + [at])
    decreases |ops|
  {
    hide CacheOk, Step, Moves;
    if |ops| == 0 {
      assert ops + [op] == [op] && [op][1..] == [] && (ats + [at])[1..] == [at];
      StepOk(c, op);
      StepConfig(c, op);
    } else {
      StepOk(c, ops[0]);
      StepConfig(c, ops[0]);
      FollowsThen(Step(c, ops[0]), ops[1..], n, w, ats[1..], op, at);
      assert (ops + [op])[1..] == ops[1..] + [op] && (ats + [at])[1..] == ats[1..] + [at];
    }
  }

  lemma GoesThen(c: State, ops: seq<Op>, n: nat, w: seq<Packet>, at: nat, op: Op, at': nat)
    requires CacheOk(c) && c.Shape() && n < |c.cfg| && GoesTo(c, ops, n, w, at)
    requires n < |Run(c, ops).cfg| && Moves(Run(c, ops), op, n, w, at, at')
    ensures GoesTo(c, ops + [op], n, w, at')
  {
    hide CacheOk, Follows, Moves;
    var ats: seq<nat> :| |ats| > 0 && ats[|ats| - 1] == at && Follows(c, ops, n, w, ats);
    FollowsThen(c, ops, n, w, ats, op, at');
    assert (ats + [at'])[|ats + [at']| - 1] == at';
  }

  lemma ReachesThen(c: State, ops: seq<Op>, w: seq<Packet>, p0: nat, p1: nat, d: State, op: Op, q0: nat, q1: nat)
    requires Reaches(c, ops, w, p0, p1, d)
    requires Moves(d, op, 0, w, p0, q0) && Moves(d, op, 1, w, p1, q1)
    ensures Reaches(c, ops + [op], w, q0, q1, Step(d, op))
  {
    hide CacheOk, Step, GoesTo, Moves, Run;
    GoesThen(c, ops, 0, w, p0, op, q0);
    GoesThen(c, ops, 1, w, p1, op, q1);
    RunThen(c, ops, op);
    StepOk(d, op);
    StepConfig(d, op);
  }

  lemma ReachesStart(c: State, w: seq<Packet>, p0: nat, p1: nat)
    requires CacheOk(c) && c.Shape() && c.cfg == BOTH
    ensures Reaches(c, [], w, p0, p1, c)
  {
    hide CacheOk;
    assert Follows(c, [], 0, w, [p0]) && [p0][|[p0]| - 1] == p0;
    assert Follows(c, [], 1, w, [p1]) && [p1][|[p1]| - 1] == p1;
  }

  // --- Video arrives ---

  function VideoOnly(ts: seq<real>, k: nat, bof: bool): Range
    requires k <= |ts|
  {
    Range([KeysFrom(ts[..k], bof), KeysFrom([], bof)], NOPTS, NOPTS, bof && k > 1, false)
  }

  function VideoCache(older: seq<Range>, ts: seq<real>, k: nat, bof: bool, pts: real): State
    requires k <= |ts|
  {
    Cached(older, VideoOnly(ts, k, bof), if k > 0 then Some(0) else None, None, pts)
  }

  lemma CachedShape(older: seq<Range>, r: Range, video: Option<nat>, audio: Option<nat>, pts: real, r': Range)
    ensures var c := Cached(older, r, video, audio, pts);
            && c.ranges[c.Last()] == r && |c.streams| == 2 && c.cfg == BOTH
            && WithStream(WithRange(c, c.Last(), r'), 0, Reader(Some(0))) == Cached(older, r', Some(0), audio, pts)
            && WithStream(WithRange(c, c.Last(), r'), 1, Reader(Some(0))) == Cached(older, r', video, Some(0), pts)
  {
    var c := Cached(older, r, video, audio, pts);
    assert WithRange(c, c.Last(), r').ranges == older + [r'];
    assert [Reader(video), Reader(audio)][0 := Reader(Some(0))] == [Reader(Some(0)), Reader(audio)];
    assert [Reader(video), Reader(audio)][1 := Reader(Some(0))] == [Reader(video), Reader(Some(0))];
  }

  lemma RisingNext(ts: seq<real>, k: nat)
    requires Rising(ts) && k < |ts|
    ensures ts[..k] + [ts[k]] == ts[..k + 1] && Rising(ts[..k + 1]) && |ts| < 100
  {
  }

  lemma VideoSpans(ts: seq<real>, k: nat, bof: bool)
    requires Rising(ts) && k < |ts|
    ensures var r := VideoOnly(ts, k, bof);
            SetQueue(r, 0, KeysFrom(ts[..k + 1], bof)).queues == VideoOnly(ts, k + 1, bof).queues
    ensures var r' := SetQueue(VideoOnly(ts, k, bof), 0, KeysFrom(ts[..k + 1], bof));
            VideoOnly(ts, k + 1, bof) == if k > 0 then UpdateSeekRanges(r', BOTH) else r'
  {
    var r' := SetQueue(VideoOnly(ts, k, bof), 0, KeysFrom(ts[..k + 1], bof));
    assert r'.queues == [KeysFrom(ts[..k + 1], bof), KeysFrom([], bof)];
    if k > 0 {
      BothSpan(r');
      RisingNext(ts, k);
      assert ts[0] <= ts[k - 1] || k == 1;
    }
  }

  ghost predicate SmallAll(rs: seq<Range>) {
    |rs| <= 1 && forall i :: 0 <= i < |rs| ==> Small(rs[i]) && QueuesShape(rs[i], BOTH)
  }

  lemma CachedFits(older: seq<Range>, r: Range, video: Option<nat>, audio: Option<nat>, pts: real)
    requires SmallAll(older) && Small(r) && QueuesShape(r, BOTH)
    ensures Cached(older, r, video, audio, pts).Shape()
    ensures CacheOk(Cached(older, r, video, audio, pts)) ==> WithinBudget(Cached(older, r, video, audio, pts))
  {
    hide CacheOk, WithinBudget, QueueBytes;
    var c := Cached(older, r, video, audio, pts);
    if CacheOk(c) {
      InBudget(c);
    }
  }

  lemma VideoFits(older: seq<Range>, ts: seq<real>, k: nat, bof: bool, pts: real)
    requires |ts| < 100 && k <= |ts| && SmallAll(older)
    ensures var c := VideoCache(older, ts, k, bof, pts);
            c.Shape() && ChooseNext(c.ranges, c.Last()) == None && (CacheOk(c) ==> WithinBudget(c))
  {
    hide CacheOk, WithinBudget, Keys;
    var c := VideoCache(older, ts, k, bof, pts);
    KeysSmall(ts[..k], bof);
    KeysSmall([], bof);
    KeysShape(ts[..k]);
    KeysShape([]);
    CachedFits(older, VideoOnly(ts, k, bof), if k > 0 then Some(0) else None, None, pts);
    NothingToJoin(c.ranges, c.Last());
  }

  lemma VideoArrives(older: seq<Range>, ts: seq<real>, k: nat, bof: bool, pts: real)
    requires Rising(ts) && k < |ts| && SmallAll(older) && CacheOk(VideoCache(older, ts, k, bof, pts))
    ensures VideoCache(older, ts, k, bof, pts).Shape()
    ensures Step(VideoCache(older, ts, k, bof, pts), Deliver(0, Key(ts[k]))) == VideoCache(older, ts, k + 1, bof, pts)
  {
    hide CacheOk, Takes, Arrived, WithinBudget, VideoCache, Step, ChooseNext, KeysFrom;
    RisingNext(ts, k);
    VideoFits(older, ts, k, bof, pts);
    VideoFits(older, ts, k + 1, bof, pts);
    VideoTakes(older, ts, k, bof, pts);
    Arrives(VideoCache(older, ts, k, bof, pts), 0, Key(ts[k]), KeysFrom(ts[..k + 1], bof));
  }

  lemma VideoTakes(older: seq<Range>, ts: seq<real>, k: nat, bof: bool, pts: real)
    requires Rising(ts) && k < |ts| && VideoCache(older, ts, k, bof, pts).Shape()
    ensures var c, p, q := VideoCache(older, ts, k, bof, pts), Key(ts[k]), KeysFrom(ts[..k + 1], bof);
            |c.cfg| == 2 && Takes(c, 0, p, q) && Arrived(c, 0, p, q) == VideoCache(older, ts, k + 1, bof, pts)
  {
    hide AdjustQueue, Append, UpdateSeekRanges, NeedsUpdate, Keys, Rising;
    var r, q := VideoOnly(ts, k, bof), KeysFrom(ts[..k + 1], bof);
    RisingNext(ts, k);
    KeysFromFed(ts[..k], ts[k], bof);
    VideoSpans(ts, k, bof);
    SpannedIs(r, 0, Append(r.queues[0], Key(ts[k])), Some(k), q, BOTH);
    CachedShape(older, r, if k > 0 then Some(0) else None, None, pts, VideoOnly(ts, k + 1, bof));
  }

  // --- Audio arrives, at the same times ---

  function BothUpTo(ts: seq<real>, k: nat): Range
    requires k <= |ts| && |ts| > 2
  {
    Range([KeysFrom(ts, false), KeysFrom(ts[..k], false)],
          if k > 2 then ts[0] else NOPTS, if k > 2 then ts[k - 2] else NOPTS, false, false)
  }

  function AudioCache(ts: seq<real>, k: nat, pts: real): State
    requires k <= |ts| && |ts| > 2
  {
    Cached([], BothUpTo(ts, k), Some(0), if k > 0 then Some(0) else None, pts)
  }

  lemma AudioSpans(ts: seq<real>, k: nat)
    requires Rising(ts) && k < |ts| && |ts| > 2
    ensures var r' := SetQueue(BothUpTo(ts, k), 1, KeysFrom(ts[..k + 1], false));
            BothUpTo(ts, k + 1) == if k > 0 then UpdateSeekRanges(r', BOTH) else r'
  {
    var r' := SetQueue(BothUpTo(ts, k), 1, KeysFrom(ts[..k + 1], false));
    assert r'.queues == [KeysFrom(ts, false), KeysFrom(ts[..k + 1], false)];
    if k > 0 {
      BothSpan(r');
      assert ts[0] + 1.0 <= ts[|ts| - 2] || |ts| == 2;
      assert k > 1 ==> ts[0] + 1.0 <= ts[k - 1];
      assert k < |ts| - 1 ==> ts[k - 1] + 1.0 <= ts[|ts| - 2];
    }
  }

  lemma AudioFits(ts: seq<real>, k: nat, pts: real)
    requires k <= |ts| && 2 < |ts| < 100
    ensures var c := AudioCache(ts, k, pts);
            c.Shape() && ChooseNext(c.ranges, c.Last()) == None && (CacheOk(c) ==> WithinBudget(c))
  {
    hide CacheOk, WithinBudget, Keys;
    KeysSmall(ts, false);
    KeysSmall(ts[..k], false);
    KeysShape(ts);
    KeysShape(ts[..k]);
    CachedFits([], BothUpTo(ts, k), Some(0), if k > 0 then Some(0) else None, pts);
  }

  lemma AudioTakes(ts: seq<real>, k: nat, pts: real)
    requires Rising(ts) && k < |ts| && |ts| > 2 && AudioCache(ts, k, pts).Shape()
    ensures var c, p, q := AudioCache(ts, k, pts), Key(ts[k]), KeysFrom(ts[..k + 1], false);
            |c.cfg| == 2 && Takes(c, 1, p, q) && Arrived(c, 1, p, q) == AudioCache(ts, k + 1, pts)
  {
    hide AdjustQueue, Append, UpdateSeekRanges, NeedsUpdate, Keys, Rising;
    var r, q := BothUpTo(ts, k), KeysFrom(ts[..k + 1], false);
    RisingNext(ts, k);
    KeysFromFed(ts[..k], ts[k], false);
    AudioSpans(ts, k);
    SpannedIs(r, 1, Append(r.queues[1], Key(ts[k])), Some(k), q, BOTH);
    CachedShape([], r, Some(0), if k > 0 then Some(0) else None, pts, BothUpTo(ts, k + 1));
  }

  lemma AudioArrives(ts: seq<real>, k: nat, pts: real)
    requires Rising(ts) && k < |ts| && |ts| > 2 && CacheOk(AudioCache(ts, k, pts))
    ensures AudioCache(ts, k, pts).Shape()
    ensures Step(AudioCache(ts, k, pts), Deliver(1, Key(ts[k]))) == AudioCache(ts, k + 1, pts)
  {
    hide CacheOk, Takes, Arrived, WithinBudget, AudioCache, Step, ChooseNext, KeysFrom;
    RisingNext(ts, k);
    AudioFits(ts, k, pts);
    AudioFits(ts, k + 1, pts);
    AudioTakes(ts, k, pts);
    Arrives(AudioCache(ts, k, pts), 1, Key(ts[k]), KeysFrom(ts[..k + 1], false));
  }

  // --- Seeking to where nothing is cached ---

  function Uncached(t: real): Op {
    Seek(SeekPoint(t, false), true, false, true)
  }

  lemma SeekUncached(c: State, t: real)
    requires c.Shape() && |c.ranges| == 1 && c.cfg == BOTH && c.opts == ROOMY && t != NOPTS && !InRange(c.ranges[0], t)
    requires TrimRange(c.ranges[0], BOTH) == c.ranges[0]
    requires forall n :: 0 <= n < 2 ==> c.streams[n].globalCorrectDts && c.streams[n].globalCorrectPos
    ensures var older := if c.ranges[0].seekStart != NOPTS then [c.ranges[0]] else [];
            QueueSeek(c, SeekPoint(t, false), true, false, true).(seeking := false)
            == Cached(older, NewRange(BOTH), None, None, t)
  {
    hide TrimRange, NewRange;
    var r, k := c.ranges[0], FindCacheRange(c, t, 0);
    assert k == 1;
    var c0 := ClearReaders(c);
    var c1 := c0.(ranges := c.ranges[..0] + [NewRange(BOTH), r]);
    assert c1.ranges == [NewRange(BOTH), r] && c1.ranges[1..1] == [] && c1.ranges[..0] == [];
    assert c1.Shape() by { NewShape(); }
    assert !Unjoinable(c1);
    var rs := c1.ranges[..0] + c1.ranges[1..1] + [r] + [NewRange(BOTH)];
    assert rs == [r, NewRange(BOTH)] && rs[..1] == [r] && rs[..1][..0] == [];
    assert Kept([], true) == [];
    assert Kept(rs[..1], true) == if r.seekStart != NOPTS then [r] else [];
    var d := FreshRange(c0).(seeking := true, seekPts := t);
    assert d.streams == [Reader(None), Reader(None)];
  }

  lemma NewShape()
    ensures QueuesShape(NewRange(BOTH), BOTH) && |NewRange(BOTH).queues| == 2
  {
  }

  lemma NewIsVideoOnly(ts: seq<real>)
    ensures NewRange(BOTH) == VideoOnly(ts, 0, false)
  {
    assert Keys([]).(isBof := false) == NewQueue() by {
      assert seq(0, i => i) == [] && KeyPackets([]) == [] && KeyEntries([]) == [];
    }
    assert ts[..0] == [];
    assert NewRange(BOTH).queues == VideoOnly(ts, 0, false).queues;
  }

  lemma KeysKeepHead(ts: seq<real>, us: seq<real>, r: Range)
    requires r.queues == [KeysFrom(ts, false), KeysFrom(us, false)]
    ensures QueuesShape(r, BOTH) && TrimRange(r, BOTH) == r
  {
    KeysShape(ts);
    KeysShape(us);
    assert TrimNonKeyframes(r.queues[0]) == r.queues[0] && TrimNonKeyframes(r.queues[1]) == r.queues[1];
    assert TrimRange(r, BOTH).queues == r.queues;
  }

  lemma KeysOrdered(ts: seq<real>, cfg: StreamConfig)
    requires Rising(ts)
    ensures Ordered(KeyPackets(ts)) && StoredAll(KeyPackets(ts), cfg) == KeyPackets(ts)
  {
    var s := KeyPackets(ts);
    forall i | 0 <= i < |ts|
      ensures ts[i] >= 0.0 && s[i] == Key(ts[i])
    {
      assert i > 0 ==> ts[0] + 1.0 <= ts[i];
    }
    forall i, j | 0 <= i < j < |s|
      ensures s[i].dts < s[j].dts && s[i].pos < s[j].pos
    {
      assert ts[i] + 1.0 <= ts[j];
    }
    assert StoredAll(s, cfg) == s;
  }

  lemma RisingSlice(ts: seq<real>, i: nat, j: nat)
    requires Rising(ts) && i <= j <= |ts|
    ensures Rising(ts[i..j])
  {
    assert i < j ==> i == 0 || ts[0] + 1.0 <= ts[i];
  }

  // --- The run ---

  // The video of the stream from lo to hi is delivered.
  lemma {:induction false} VideoPhase(c: State, ops: seq<Op>, all: seq<real>, lo: nat, hi: nat, k: nat, p1: nat,
                                      older: seq<Range>, bof: bool, pts: real)
    requires Rising(all) && lo <= hi <= |all| && k <= hi - lo && SmallAll(older)
    requires Reaches(c, ops, KeyPackets(all), lo, p1, VideoCache(older, all[lo..hi], 0, bof, pts))
    ensures Reaches(c, ops + Deliveries(0, all[lo..hi])[..k], KeyPackets(all), lo + k, p1,
                    VideoCache(older, all[lo..hi], k, bof, pts))
    decreases k
  {
    hide CacheOk, Step, Rising, VideoCache, GoesTo, Run, SmallAll;
    var ts := all[lo..hi];
    if k == 0 {
      assert ops + Deliveries(0, ts)[..0] == ops;
    } else {
      VideoPhase(c, ops, all, lo, hi, k - 1, p1, older, bof, pts);
      RisingSlice(all, lo, hi);
      VideoArrives(older, ts, k - 1, bof, pts);
      assert KeyPackets(all)[lo + k - 1] == Key(ts[k - 1]);
      ReachesThen(c, ops + Deliveries(0, ts)[..k - 1], KeyPackets(all), lo + k - 1, p1,
                  VideoCache(older, ts, k - 1, bof, pts), Deliver(0, Key(ts[k - 1])), lo + k, p1);
      assert ops + Deliveries(0, ts)[..k - 1] + [Deliver(0, Key(ts[k - 1]))] == ops + Deliveries(0, ts)[..k];
    }
  }

  lemma {:induction false} AudioPhase(c: State, ops: seq<Op>, all: seq<real>, lo: nat, k: nat, p0: nat, pts: real)
    requires Rising(all) && lo + 2 < |all| && k <= |all| - lo
    requires Reaches(c, ops, KeyPackets(all), p0, lo, AudioCache(all[lo..], 0, pts))
    ensures Reaches(c, ops + Deliveries(1, all[lo..])[..k], KeyPackets(all), p0, lo + k, AudioCache(all[lo..], k, pts))
    decreases k
  {
    hide CacheOk, Step, Rising, AudioCache, GoesTo, Run;
    var ts := all[lo..];
    if k == 0 {
      assert ops + Deliveries(1, ts)[..0] == ops;
    } else {
      AudioPhase(c, ops, all, lo, k - 1, p0, pts);
      RisingSlice(all, lo, |all|);
      assert all[lo..|all|] == ts;
      AudioArrives(ts, k - 1, pts);
      assert KeyPackets(all)[lo + k - 1] == Key(ts[k - 1]);
      ReachesThen(c, ops + Deliveries(1, ts)[..k - 1], KeyPackets(all), p0, lo + k - 1,
                  AudioCache(ts, k - 1, pts), Deliver(1, Key(ts[k - 1])), p0, lo + k);
      assert ops + Deliveries(1, ts)[..k - 1] + [Deliver(1, Key(ts[k - 1]))] == ops + Deliveries(1, ts)[..k];
    }
  }

  // A seek to where nothing is cached. The demuxer goes to position p.
  lemma SeekPhase(c: State, ops: seq<Op>, all: seq<real>, p0: nat, p1: nat, d: State, t: real, p: nat)
    requires Rising(all) && Reaches(c, ops, KeyPackets(all), p0, p1, d)
    requires |d.ranges| == 1 && d.opts == ROOMY && t != NOPTS && !InRange(d.ranges[0], t)
    requires TrimRange(d.ranges[0], BOTH) == d.ranges[0]
    requires forall n :: 0 <= n < 2 ==> d.streams[n].globalCorrectDts && d.streams[n].globalCorrectPos
    ensures var older := if d.ranges[0].seekStart != NOPTS then [d.ranges[0]] else [];
            Reaches(c, ops + [Uncached(t)] + [ExecuteSeek], KeyPackets(all), p, p, Cached(older, NewRange(BOTH), None, None, t))
  {
    hide CacheOk, Rising, GoesTo, Run, QueueSeek, TrimRange;
    var w := KeyPackets(all);
    var older := if d.ranges[0].seekStart != NOPTS then [d.ranges[0]] else [];
    SeekUncached(d, t);
    var d1 := Step(d, Uncached(t));
    ReachesThen(c, ops, w, p0, p1, d, Uncached(t), p0, p1);
    SeekSeeks(d, t);
    NewHasNoWindow(d1, older, t, all, p);
    ReachesThen(c, ops + [Uncached(t)], w, p0, p1, d1, ExecuteSeek, p, p);
  }

  lemma SeekSeeks(d: State, t: real)
    requires d.Shape() && |d.ranges| == 1 && d.opts == ROOMY && t != NOPTS && !InRange(d.ranges[0], t)
    ensures QueueSeek(d, SeekPoint(t, false), true, false, true).seeking
  {
    hide FreshRange;
  }

  lemma NewHasNoWindow(d: State, older: seq<Range>, t: real, all: seq<real>, p: nat)
    requires Rising(all) && d.(seeking := false) == Cached(older, NewRange(BOTH), None, None, t)
    ensures |d.ranges| > 0 && d.cfg == BOTH && |d.ranges[|d.ranges| - 1].queues| == 2
    ensures var qs := d.ranges[|d.ranges| - 1].queues;
            && ResumesBefore(qs[0], StoredAll(KeyPackets(all), BOTH[0]), p)
            && ResumesBefore(qs[1], StoredAll(KeyPackets(all), BOTH[1]), p)
  {
    KeysOrdered(all, BOTH[0]);
    KeysOrdered(all, BOTH[1]);
    UntouchedHasNoWindow(NewQueue(), KeyPackets(all));
  }

  // --- The join ---

  lemma {:induction false} KeysTrim(q: Queue, ts: seq<real>, m: nat, st: Stream)
    requires Rising(ts) && m + 1 < |ts| && q.pkts == KeyPackets(ts) && |q.cum| == |q.pkts|
    requires q.kfLatest == Some(q.base + |ts| - 1) && st.globalCorrectDts && st.globalCorrectPos
    ensures var t := TrimToJoin(q, Key(ts[m]), st);
            t.Joinable? && t.q.pkts == KeyPackets(ts)[m + 1..] && t.q.seekEnd == q.seekEnd && t.q.isEof == q.isEof
    decreases m
  {
    if m > 0 {
      var r := RemoveHead(q);
      assert ts[0] + 1.0 <= ts[m];
      RisingSlice(ts, 1, |ts|);
      assert ts[1..|ts|] == ts[1..] && KeyPackets(ts[1..]) == KeyPackets(ts)[1..];
      KeysTrim(r, ts[1..], m - 1, st);
      assert KeyPackets(ts)[1..][m..] == KeyPackets(ts)[m + 1..];
    }
  }

  // The audio queue as EOF leaves it.
  function Ended(bof: bool): Queue {
    KeysFrom([], bof).(isEof := true)
  }

  // The cache when it looks for a range to join.
  function AtEof(all: seq<real>, i: nat, j: nat, bof: bool): State
    requires i + 2 < j < |all|
  {
    State([BothUpTo(all[i..], |all| - i),
           Range([KeysFrom(all[..j], bof), Ended(bof)], all[0], all[j - 2], bof, false)],
          BOTH, [Reader(Some(0)), Reader(None).(eof := true)], false, all[0], ROOMY)
  }

  lemma EofSpan(all: seq<real>, i: nat, j: nat, bof: bool)
    requires Rising(all) && i + 2 < j < |all|
    requires VideoCache([BothUpTo(all[i..], |all| - i)], all[..j], j, bof, all[0]).Shape()
    ensures |VideoCache([BothUpTo(all[i..], |all| - i)], all[..j], j, bof, all[0]).cfg| == 2
    ensures AtEof(all, i, j, bof).Shape()
    ensures MarkEof(VideoCache([BothUpTo(all[i..], |all| - i)], all[..j], j, bof, all[0]), 1)
            == AttemptJoin(AtEof(all, i, j, bof))
  {
    hide AttemptJoin, UpdateSeekRanges, Keys, AdjustQueue, NeedsUpdate;
    var d := VideoCache([BothUpTo(all[i..], |all| - i)], all[..j], j, bof, all[0]);
    var r := VideoOnly(all[..j], j, bof);
    EndedIs(bof);
    EndedSpan(all, j, bof);
    var c1 := WithStream(d, 1, d.streams[1].(eof := true));
    assert c1.ranges[1] == r;
    var c2 := WithRange(c1, 1, UpdateSeekRanges(SetQueue(r, 1, Ended(bof)), BOTH));
    assert c2.ranges == AtEof(all, i, j, bof).ranges && c2.streams == AtEof(all, i, j, bof).streams;
    assert c2 == AtEof(all, i, j, bof);
    KeysShape(all[..j]);
    KeysShape([]);
    assert QueuesShape(c2.ranges[0], BOTH) && QueuesShape(c2.ranges[1], BOTH);
    assert AdjustSeekRange(c1, 1, None) == AttemptJoin(c2);
  }

  lemma EndedIs(bof: bool)
    ensures AdjustQueue(KeysFrom([], bof), None, 0.0) == Ended(bof)
    ensures forall rangeEnd :: NeedsUpdate(KeysFrom([], bof), None, rangeEnd)
  {
  }

  lemma EndedSpan(all: seq<real>, j: nat, bof: bool)
    requires Rising(all) && 2 < j < |all|
    ensures UpdateSeekRanges(SetQueue(VideoOnly(all[..j], j, bof), 1, Ended(bof)), BOTH)
            == Range([KeysFrom(all[..j], bof), Ended(bof)], all[0], all[j - 2], bof, false)
  {
    var r := SetQueue(VideoOnly(all[..j], j, bof), 1, Ended(bof));
    assert all[..j][..j] == all[..j];
    assert r.queues == [KeysFrom(all[..j], bof), Ended(bof)];
    assert all[0] + 1.0 <= all[j - 2];
    BothSpan(r);
  }

  lemma JoinFieldsOf(q1: Queue, q2: Queue)
    ensures var r := Join(q1, q2);
            && r.seekEnd == q2.seekEnd && r.isEof == q2.isEof && r.isBof == q1.isBof && r.seekStart == q1.seekStart
            && r.pkts == q1.pkts + q2.pkts && r.base == q1.base
  {
    hide AddEntries, SizeAfterEntries, Renumber, Recounted;
  }

  // What is left of a successful join of two ranges.
  lemma JoinedRange(c: State, qs2: seq<Queue>)
    requires c.Shape() && |c.ranges| == 2 && c.opts.seekableCache && ChooseNext(c.ranges, 1) == Some(0)
    requires TrimAll(c.ranges[1].queues, c.ranges[0].queues, c.cfg, c.streams, |c.cfg|) == Some(qs2) && |qs2| == |c.cfg|
    ensures var c' := AttemptJoin(c);
            && |c'.ranges| == 1
            && c'.ranges[0] == UpdateSeekRanges(c.ranges[1].(queues := JoinAll(c.ranges[1].queues, qs2)), c.cfg)
            && c'.streams == JoinStreams(c.ranges[1].queues, qs2, c.cfg, c.streams)
  {
    hide ClearRange, UpdateSeekRanges, Join, JoinStream, TrimAll, ChooseNext;
    ClearedHasNoSpan(c.ranges[0], c.cfg);
    UpdatedSpan(c.ranges[1].(queues := JoinAll(c.ranges[1].queues, qs2)), c.cfg);
    var c1 := JoinWith(c, 0, qs2);
    var c2 := WithRange(c1, 0, ClearRange(c1.ranges[0], c.cfg));
    assert c2.ranges[..1] == [c2.ranges[0]] && c2.ranges[..1][..0] == [];
    assert Kept([], true) == [] && Kept(c2.ranges[..1], true) == [];
  }

  lemma TrimsTwo(qs1: seq<Queue>, qs2: seq<Queue>, cfg: seq<StreamConfig>, ss: seq<Stream>)
    requires |qs1| == |qs2| == |cfg| == |ss| == 2
    requires |qs2[0].cum| == |qs2[0].pkts| && |qs2[1].cum| == |qs2[1].pkts|
    requires TrimStream(qs1[0], qs2[0], cfg[0], ss[0]).Joinable? && TrimStream(qs1[1], qs2[1], cfg[1], ss[1]).Joinable?
    ensures TrimAll(qs1, qs2, cfg, ss, 2)
            == Some([TrimStream(qs1[0], qs2[0], cfg[0], ss[0]).q, TrimStream(qs1[1], qs2[1], cfg[1], ss[1]).q])
  {
    hide TrimStream;
    var q := TrimStream(qs1[0], qs2[0], cfg[0], ss[0]).q;
    assert TrimAll(qs1, qs2, cfg, ss, 0) == Some([]) && [] + [q] == [q];
    assert TrimAll(qs1, qs2, cfg, ss, 1) == Some([q]);
    var p := TrimStream(qs1[1], qs2[1], cfg[1], ss[1]).q;
    assert [q] + [p] == [q, p];
  }

  lemma VideoTrims(all: seq<real>, i: nat, j: nat, bof: bool, st: Stream)
    requires Rising(all) && i + 2 < j < |all| && st.globalCorrectDts && st.globalCorrectPos
    ensures var q2 := KeysFrom(all[i..], false);
            var t := TrimStream(KeysFrom(all[..j], bof), q2, VIDEO, st);
            && |q2.cum| == |q2.pkts| && t.Joinable? && t.q.seekEnd == all[|all| - 2] && !t.q.isEof
  {
    hide Rising, TrimToJoin;
    var ts, q1 := all[i..], KeysFrom(all[..j], bof);
    RisingSlice(all, i, |all|);
    assert all[i..|all|] == ts && ts[j - 1 - i] == all[j - 1] && ts[|ts| - 2] == all[|all| - 2];
    assert q1.pkts[|q1.pkts| - 1] == Key(ts[j - 1 - i]);
    KeysTrim(KeysFrom(ts, false), ts, j - 1 - i, st);
  }

  // What the join makes of the cache.
  ghost predicate Joined(c: State, all: seq<real>, i: nat, bof: bool)
    requires i + 2 < |all|
  {
    && |c.ranges| == 1 && |c.ranges[0].queues| == 2 && |c.streams| == 2
    && c.ranges[0].queues[1] == Join(Ended(bof), KeysFrom(all[i..], false))
    && c.ranges[0].seekStart == all[0] && c.ranges[0].seekEnd == all[|all| - 2]
    && c.ranges[0].isBof == bof && !c.ranges[0].isEof
    && c.streams[1] == JoinStream(Ended(bof), KeysFrom(all[i..], false), AUDIO, Reader(None).(eof := true))
  }

  lemma JoinsBoth(all: seq<real>, i: nat, j: nat, bof: bool)
    requires Rising(all) && 0 < i && i + 2 < j < |all| && AtEof(all, i, j, bof).Shape()
    ensures Joined(AttemptJoin(AtEof(all, i, j, bof)), all, i, bof)
    ensures JoinsWith(AtEof(all, i, j, bof)) == Some(0)
  {
    hide Join, TrimToJoin, Keys, JoinStream, TrimAll, AttemptJoin, UpdateSeekRanges, QueuesShape;
    var c := AtEof(all, i, j, bof);
    var ls := all[i..];
    assert all[0] + 1.0 <= all[i] && all[i] + 1.0 <= all[j - 2] && all[0] + 1.0 <= all[|all| - 2];
    assert ls[..|all| - i] == ls && ls[0] == all[i] && ls[|ls| - 2] == all[|all| - 2];
    hide Rising;
    assert ChooseNext(c.ranges, 0) == None && ChooseNext(c.ranges, 1) == Some(0);
    VideoTrims(all, i, j, bof, c.streams[0]);
    var v := TrimStream(KeysFrom(all[..j], bof), KeysFrom(ls, false), VIDEO, c.streams[0]).q;
    KeysShape([]);
    KeysShape(ls);
    KeysShape(all[..j]);
    TrimsTwo(c.ranges[1].queues, c.ranges[0].queues, c.cfg, c.streams);
    var qs2 := [v, KeysFrom(ls, false)];
    JoinedRange(c, qs2);
    JoinedSpan(all, i, j, bof, v, c.ranges[1]);
  }

  lemma JoinedSpan(all: seq<real>, i: nat, j: nat, bof: bool, v: Queue, r: Range)
    requires 0 < i && i + 2 < j < |all| && NOPTS < all[0] < all[|all| - 2]
    requires r.queues == [KeysFrom(all[..j], bof), Ended(bof)] && v.seekEnd == all[|all| - 2] && !v.isEof
    ensures var r' := UpdateSeekRanges(r.(queues := JoinAll(r.queues, [v, KeysFrom(all[i..], false)])), BOTH);
            && |r'.queues| == 2 && r'.queues[1] == Join(Ended(bof), KeysFrom(all[i..], false))
            && r'.seekStart == all[0] && r'.seekEnd == all[|all| - 2] && r'.isBof == bof && !r'.isEof
  {
    hide Join, UpdateSeekRanges;
    var r1 := r.(queues := JoinAll(r.queues, [v, KeysFrom(all[i..], false)]));
    JoinFieldsOf(r.queues[0], v);
    JoinFieldsOf(r.queues[1], KeysFrom(all[i..], false));
    assert all[i..][|all[i..]| - 2] == all[|all| - 2] && all[..j][0] == all[0];
    BothSpan(r1);
  }

  // The file from its keyframe i on is cached, and both queues; then, after a seek
  // to the beginning, the video up to keyframe j.
  function Ops(all: seq<real>, i: nat, j: nat, bof: bool): seq<Op>
    requires i < |all| && j <= |all|
  {
    [Uncached(all[i]), ExecuteSeek] + Deliveries(0, all[i..]) + Deliveries(1, all[i..])
    + [Uncached(all[0]), ExecuteSeek] + (if bof then [MarkBof] else []) + Deliveries(0, all[..j])
  }

  lemma LaterCached(all: seq<real>, i: nat)
    requires Rising(all) && 0 < i && i + 2 < |all|
    ensures Reaches(Initial(BOTH, ROOMY), [Uncached(all[i]), ExecuteSeek] + Deliveries(0, all[i..]) + Deliveries(1, all[i..]),
                    KeyPackets(all), |all|, |all|, AudioCache(all[i..], |all| - i, all[i]))
  {
    hide CacheOk, Rising, GoesTo, Run, Step, Keys;
    var c, w, ls := Initial(BOTH, ROOMY), KeyPackets(all), all[i..];
    ReachesStart(c, w, 0, 0);
    assert all[i] >= 0.0 by { assert Rising(all); RisingPositive(all, i); }
    NewIsVideoOnly([]);
    KeysKeepHead([], [], c.ranges[0]);
    SeekPhase(c, [], all, 0, 0, c, all[i], i);
    NewIsVideoOnly(ls);
    var ops := [Uncached(all[i]), ExecuteSeek];
    assert [] + [Uncached(all[i])] + [ExecuteSeek] == ops;
    assert all[i..|all|] == ls;
    VideoPhase(c, ops, all, i, |all|, |all| - i, i, [], false, all[i]);
    assert Deliveries(0, ls)[..|all| - i] == Deliveries(0, ls) == Deliveries(0, all[i..|all|]);
    ops := ops + Deliveries(0, ls);
    assert ls[..|ls|] == ls && ls[..0] == [];
    assert VideoOnly(ls, |ls|, false) == BothUpTo(ls, 0);
    AudioPhase(c, ops, all, i, |all| - i, |all|, all[i]);
    assert Deliveries(1, ls)[..|all| - i] == Deliveries(1, ls);
  }

  lemma RisingPositive(all: seq<real>, i: nat)
    requires Rising(all) && i < |all|
    ensures all[i] >= 0.0 && (i > 0 ==> all[0] < all[i])
  {
  }

  lemma RunReaches(all: seq<real>, i: nat, j: nat, bof: bool)
    requires Rising(all) && 0 < i && i + 2 < j < |all|
    ensures Reaches(Initial(BOTH, ROOMY), Ops(all, i, j, bof), KeyPackets(all), j, 0,
                    VideoCache([BothUpTo(all[i..], |all| - i)], all[..j], j, bof, all[0]))
  {
    hide CacheOk, Rising, GoesTo, Run, Step, Keys, Initial;
    var c, w, ls, es := Initial(BOTH, ROOMY), KeyPackets(all), all[i..], all[..j];
    var later := BothUpTo(ls, |all| - i);
    var ops := [Uncached(all[i]), ExecuteSeek] + Deliveries(0, ls) + Deliveries(1, ls);
    LaterCached(all, i);
    RisingPositive(all, 0);
    RisingPositive(all, i);
    assert ls[..|all| - i] == ls && ls[0] == all[i];
    KeysKeepHead(ls, ls, later);
    SeekPhase(c, ops, all, |all|, |all|, AudioCache(ls, |all| - i, all[i]), all[0], 0);
    ops := ops + [Uncached(all[0])] + [ExecuteSeek];
    NewIsVideoOnly(es);
    if bof {
      ReachesThen(c, ops, w, 0, 0, VideoCache([later], es, 0, false, all[0]), MarkBof, 0, 0);
      MarkedVideo([later], es, all[0]);
      ops := ops + [MarkBof];
    }
    assert all[0..j] == es;
    SmallLater(all, i);
    VideoPhase(c, ops, all, 0, j, j, 0, [later], bof, all[0]);
    assert Deliveries(0, es)[..j] == Deliveries(0, es);
    assert ops + Deliveries(0, es) == Ops(all, i, j, bof);
  }

  lemma SmallLater(all: seq<real>, i: nat)
    requires Rising(all) && i + 2 < |all|
    ensures SmallAll([BothUpTo(all[i..], |all| - i)])
  {
    var ls := all[i..];
    assert ls[..|all| - i] == ls;
    KeysSmall(ls, false);
    KeysShape(ls);
    hide Keys, QueueBytes;
  }

  lemma MarkedVideo(older: seq<Range>, es: seq<real>, pts: real)
    requires VideoCache(older, es, 0, false, pts).Shape()
    ensures CacheOk(VideoCache(older, es, 0, false, pts)) ==>
              Step(VideoCache(older, es, 0, false, pts), MarkBof) == VideoCache(older, es, 0, true, pts)
  {
    var c, c' := VideoCache(older, es, 0, false, pts), VideoCache(older, es, 0, true, pts);
    hide CacheOk, Keys;
    assert es[..0] == [];
    assert MarkBofStep(c).ranges[c.Last()].queues == c'.ranges[c.Last()].queues;
    assert MarkBofStep(c).ranges == c'.ranges;
  }

  lemma KeyRun(ts: seq<real>, i: nat)
    requires Rising(ts) && i < |ts|
    ensures RunMin(KeyPackets(ts), i) == ts[i] && Candidate(KeyPackets(ts), i)
  {
    assert i > 0 ==> ts[0] + 1.0 <= ts[i];
    SingleRun(KeyPackets(ts), i);
  }

  // Before the first keyframe, a backward seek finds that.
  lemma FindsFirst(q: Queue, ts: seq<real>, pts: real)
    requires Rising(ts) && |ts| > 0 && q.pkts == KeyPackets(ts) && IndexOk(q.pkts, q.base, q.index) && pts < ts[0]
    ensures QueueTarget(q, AUDIO, pts, false) == Some(0) && RunMin(q.pkts, 0) == ts[0]
  {
    hide Scan, RunMin, IndexOk;
    forall k: nat | k < |ts|
      ensures RunMin(q.pkts, k) == ts[k] && Candidate(q.pkts, k) && (k > 0 ==> ts[0] < ts[k])
    {
      KeyRun(ts, k);
    }
    IndexRefinesBackwardScan(q.pkts, q.base, q.index, 0.0, pts);
    BackwardScanFinds(q.pkts, 0, pts);
    assert Candidate(q.pkts, 0);
  }

  // Audio and video have keyframes at the times `all`. What was cached is the file
  // from keyframe i on; and then, from the beginning on, j keyframes of the video.
  // That many bytes wait for the reader; if it is 20 or more, read_packet() marks
  // the audio as ended, which got no packet yet. That joins the two ranges. The
  // reader has waited for the first packet of the audio, and gets the one at i.
  // Seeks to before that are done in the cache, and find it too. And if the range
  // began the file, it goes on to claim that its audio does.
  lemma EmptyJoinSkips(all: seq<real>, i: nat, j: nat, bof: bool)
    requires Rising(all) && 0 < i && i + 2 < j < |all|
    ensures var c, w, ops := Initial(BOTH, ROOMY), KeyPackets(all), Ops(all, i, j, bof);
            var d, d' := Run(c, ops), Run(c, ops + [ReachEof(1)]);
            && Ordered(w)
            && GoesTo(c, ops + [ReachEof(1)], 0, w, j) && GoesTo(c, ops + [ReachEof(1)], 1, w, 0)
            && |d.ranges| == 2 && |d'.ranges| == 1 && |d.streams| == |d'.streams| == 2
            && |d.ranges[1].queues| == |d'.ranges[0].queues| == 2
            && d.Shape() && Forward(d) == j && d.streams[1].readerHead.None?
            && NextFor(d.ranges[1].queues[1], d.streams[1], w, 0, 0)
            && NextFor(d'.ranges[0].queues[1], d'.streams[1], w, 0, i)
            && !NextFor(d'.ranges[0].queues[1], d'.streams[1], w, 0, 0)
            && EarlySeeksMiss(d'.ranges[0], all, i)
            && (bof ==> !BofOpen(d'.ranges[0].queues[1], w))
  {
    hide CacheOk, Rising, GoesTo, Run, Step, KeysFrom, Initial, NextFor, Ops, Ordered, EarlySeeksMiss, BofOpen, Join, Reader, BothUpTo;
    RunReaches(all, i, j, bof);
    AfterEof(all, i, j, bof);
    KeysOrdered(all, AUDIO);
    WaitsForFirst(all, bof);
    VideoWaits(all, i, j, bof);
    TakesOver(all, i, bof);
    SeeksMiss(Run(Initial(BOTH, ROOMY), Ops(all, i, j, bof) + [ReachEof(1)]), all, i, bof);
  }

  lemma AfterEof(all: seq<real>, i: nat, j: nat, bof: bool)
    requires Rising(all) && 0 < i && i + 2 < j < |all|
    ensures var c, ops := Initial(BOTH, ROOMY), Ops(all, i, j, bof) + [ReachEof(1)];
            Reaches(c, ops, KeyPackets(all), j, 0, Run(c, ops)) && Joined(Run(c, ops), all, i, bof)
  {
    hide CacheOk, Rising, GoesTo, Run, Keys, Initial, Ops, Joined, AtEof, AttemptJoin;
    var c, w, ops := Initial(BOTH, ROOMY), KeyPackets(all), Ops(all, i, j, bof);
    var d := VideoCache([BothUpTo(all[i..], |all| - i)], all[..j], j, bof, all[0]);
    RunReaches(all, i, j, bof);
    ReachesThen(c, ops, w, j, 0, d, ReachEof(1), j, 0);
    EofSpan(all, i, j, bof);
    JoinsBoth(all, i, j, bof);
  }

  lemma VideoWaits(all: seq<real>, i: nat, j: nat, bof: bool)
    requires i + 2 < j < |all|
    requires var d := VideoCache([BothUpTo(all[i..], |all| - i)], all[..j], j, bof, all[0]); d.Shape()
    ensures var d := VideoCache([BothUpTo(all[i..], |all| - i)], all[..j], j, bof, all[0]);
            Forward(d) == j && d.streams[1] == Reader(None) && d.streams[1].readerHead.None?
  {
    var d := VideoCache([BothUpTo(all[i..], |all| - i)], all[..j], j, bof, all[0]);
    assert all[..j][..j] == all[..j];
    assert ForwardTotal(d.ranges[1].queues, d.streams, 1) == j;
  }

  lemma WaitsForFirst(all: seq<real>, bof: bool)
    ensures NextFor(KeysFrom([], bof), Reader(None), KeyPackets(all), 0, 0)
  {
    assert Untouched(KeysFrom([], bof));
    assert GoesOn(KeysFrom([], bof), KeyPackets(all), 0, 0);
  }

  lemma LaterWindow(all: seq<real>, i: nat)
    requires i < |all| && Rising(all)
    ensures WindowAt(KeysFrom(all[i..], false), KeyPackets(all), |all|) && |KeysFrom(all[i..], false).pkts| == |all| - i
    ensures Window(KeysFrom(all[i..], false), KeyPackets(all))
  {
    var ls := all[i..];
    assert KeyPackets(all)[i..|all|] == KeyPackets(ls);
    assert ls[|ls| - 1] == all[|all| - 1];
    assert WindowAt(KeysFrom(ls, false), KeyPackets(all), |all|);
    assert DtsRise(KeysFrom(ls, false)) && PosRise(KeysFrom(ls, false));
  }

  lemma TakesOver(all: seq<real>, i: nat, bof: bool)
    requires Rising(all) && 0 < i && i + 2 < |all|
    ensures var q, st := Join(Ended(bof), KeysFrom(all[i..], false)), Reader(None).(eof := true);
            var tt := JoinStream(Ended(bof), KeysFrom(all[i..], false), AUDIO, st);
            && q.pkts == KeyPackets(all[i..])
            && NextFor(q, tt, KeyPackets(all), 0, i) && !NextFor(q, tt, KeyPackets(all), 0, 0)
            && (bof ==> !BofOpen(q, KeyPackets(all)))
  {
    hide Join, NextFor, Ordered, JoinStream, Rising, HeadBegins;
    var q2, st, s := KeysFrom(all[i..], false), Reader(None).(eof := true), KeyPackets(all);
    KeysOrdered(all, AUDIO);
    LaterWindow(all, i);
    JoinFieldsOf(Ended(bof), q2);
    assert TrimStream(Ended(bof), q2, AUDIO, st) == Joinable(q2);
    EmptyJoinReaderIff(Ended(bof), q2, s, AUDIO, st, 0, i);
    EmptyJoinReaderIff(Ended(bof), q2, s, AUDIO, st, 0, 0);
    NotFromTheBeginning(all, i);
    if bof {
      EndedWindow(s);
      JoinBeginsIff(Ended(true), q2, s, AUDIO, st);
    }
  }

  lemma EndedWindow(s: seq<Packet>)
    requires Ordered(s)
    ensures Window(Ended(true), s) && BofOpen(Ended(true), s)
  {
    assert Untouched(Ended(true));
    UntouchedHasNoWindow(Ended(true), s);
  }

  lemma NotFromTheBeginning(all: seq<real>, i: nat)
    requires Rising(all) && 0 < i < |all|
    ensures var q, s := KeysFrom(all[i..], false), KeyPackets(all);
            StartsFrom(q, s, 0, i) && !StartsFrom(q, s, 0, 0) && !HeadBegins(q, s)
  {
    hide Rising;
    var q, s := KeysFrom(all[i..], false), KeyPackets(all);
    KeysOrdered(all, AUDIO);
    LaterWindow(all, i);
    assert WindowAt(q, s, |all|) && s[0].keyframe;
    forall hi: nat | WindowAt(q, s, hi)
      ensures hi == |all|
    {
      WindowUnique(q, s, hi, |all|);
    }
  }

  lemma SeeksMiss(d: State, all: seq<real>, i: nat, bof: bool)
    requires Rising(all) && 0 < i && i + 2 < |all| && Joined(d, all, i, bof) && CacheOk(d) && d.cfg == BOTH
    requires Join(Ended(bof), KeysFrom(all[i..], false)).pkts == KeyPackets(all[i..])
    ensures EarlySeeksMiss(d.ranges[0], all, i)
  {
    hide Join, QueueTarget, RunMin, IndexOk, Keys;
    var r := d.ranges[0];
    OkHasShape(d);
    assert QueueOk(r.queues[1], d.cfg[1]);
    RisingSlice(all, i, |all|);
    assert all[i..|all|] == all[i..];
    RisingPositive(all, 0);
    forall pts | all[0] <= pts < all[i]
      ensures MissesAt(r, all[i], pts)
    {
      assert all[i] + 1.0 <= all[|all| - 2];
      FindsFirst(r.queues[1], all[i..], pts);
    }
  }

  // A seek to a position in the range finds a keyframe after it.
  ghost predicate MissesAt(r: Range, first: real, pts: real) {
    && InRange(r, pts) && |r.queues| == 2 && |r.queues[1].pkts| > 0
    && QueueTarget(r.queues[1], AUDIO, pts, false) == Some(0) && pts < RunMin(r.queues[1].pkts, 0) == first
  }

  // ... though the stream has one before.
  ghost predicate EarlySeeksMiss(r: Range, all: seq<real>, i: nat)
    requires 0 < i < |all|
  {
    forall pts :: all[0] <= pts < all[i] ==> MissesAt(r, all[i], pts)
  }
}
