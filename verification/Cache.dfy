// The seekable packet cache: what each operation of the demuxer does to the
// cached ranges and to the state of the streams.
//
// The range used last is the last one. It is the current range, to
// which the demuxer appends and from which the decoder reads.

module Cache {
  import opened Timestamps
  import opened Wrappers
  import opened Packets
  import opened RingIndex
  import opened SeekTarget
  import opened Queues
  import opened Ranges

  // The changing state of a stream. `readerHead` is the number of a packet in
  // the stream's queue of the current range.
  datatype Stream = Stream(
    refreshing: bool, globalCorrectDts: bool, globalCorrectPos: bool, eof: bool,
    readerHead: Option<nat>, skipToKeyframe: bool)

  datatype Options = Options(maxBytes: nat, maxBytesBw: nat, donateFw: bool, seekableCache: bool)

  datatype State = State(
    ranges: seq<Range>, cfg: seq<StreamConfig>, streams: seq<Stream>,
    seeking: bool, seekPts: real, opts: Options)
  {
    function Last(): int { |ranges| - 1 }

    ghost predicate Shape() {
      && |ranges| > 0 && |streams| == |cfg|
      && (forall r :: 0 <= r < |ranges| ==> QueuesShape(ranges[r], cfg))
    }
  }

  ghost predicate QueuesShape(r: Range, cfg: seq<StreamConfig>) {
    |r.queues| == |cfg| && forall n :: 0 <= n < |cfg| ==> |r.queues[n].cum| == |r.queues[n].pkts|
  }

  function SetQueue(r: Range, n: nat, q: Queue): Range
    requires n < |r.queues|
  {
    r.(queues := r.queues[n := q])
  }

  function WithRange(c: State, i: nat, r: Range): State
    requires i < |c.ranges|
  {
    c.(ranges := c.ranges[i := r])
  }

  function WithStream(c: State, n: nat, s: Stream): State
    requires n < |c.streams|
  {
    c.(streams := c.streams[n := s])
  }

  function FreeEmptyRanges(c: State): State
    requires |c.ranges| > 0
  {
    c.(ranges := FreeEmpty(c.ranges, c.opts.seekableCache))
  }

  // --- Seek range of a queue, when a packet was appended or EOF was reached ---

  // Whether a keyframe run is complete: the next keyframe or EOF came. `dp` is
  // the packet that was appended, None for EOF.
  predicate Closes(q: Queue, dp: Option<nat>) {
    q.kfLatest.Some? && q.Has(q.kfLatest.value) && (dp.Some? && q.Has(dp.value) ==> q.pkts[dp.value - q.base].keyframe)
  }

  function LatestMin(q: Queue): real {
    if q.kfLatest.Some? && q.Has(q.kfLatest.value) then RunMin(q.pkts, q.kfLatest.value - q.base) else NOPTS
  }

  function LatestMax(q: Queue): real {
    if q.kfLatest.Some? && q.Has(q.kfLatest.value) then RunMax(q.pkts, q.kfLatest.value - q.base) else NOPTS
  }

  function LatestEntry(q: Queue): IndexEntry<nat> {
    IndexEntry(LatestMin(q), if q.kfLatest.Some? then q.kfLatest.value else 0)
  }

  // A complete run is indexed, sets the queue's start if unset, ...
  predicate Indexes(q: Queue, dp: Option<nat>) {
    Closes(q, dp) && LatestMin(q) != NOPTS
  }

  predicate Starts(q: Queue, dp: Option<nat>) {
    Indexes(q, dp) && q.seekStart == NOPTS
  }

  // ... and may extend the queue's end.
  predicate Extends(q: Queue, dp: Option<nat>) {
    Closes(q, dp) && LatestMax(q) != NOPTS && (q.seekEnd == NOPTS || LatestMax(q) > q.seekEnd)
  }

  predicate MovesKeyframe(q: Queue, dp: Option<nat>) {
    dp.Some? && q.Has(dp.value) ==> q.pkts[dp.value - q.base].keyframe
  }

  // The part of adjust_seek_range_on_packet() that concerns the queue.
  function AdjustQueue(q: Queue, dp: Option<nat>, preroll: real): Queue {
    q.(isEof := dp.None?,
       index := if Indexes(q, dp) then AddEntry(q.index, LatestEntry(q)) else q.index,
       indexSize := if Indexes(q, dp) then SizeAfterAdd(q.index, q.indexSize, LatestEntry(q)) else q.indexSize,
       seekStart := if Starts(q, dp) then LatestMin(q) + preroll else q.seekStart,
       seekEnd := if Extends(q, dp) then LatestMax(q) else q.seekEnd,
       kfLatest := if MovesKeyframe(q, dp) then dp else q.kfLatest)
  }

  // Whether the span of the range has to be updated. A queue that reached beyond
  // the range all along cannot have held it back.
  predicate NeedsUpdate(q: Queue, dp: Option<nat>, rangeEnd: real) {
    q.isEof != dp.None? || Starts(q, dp) || (Extends(q, dp) && (rangeEnd == NOPTS || q.seekEnd <= rangeEnd))
  }

  // --- Joining ranges ---

  // The range that begins inside the current one and overlaps it the least.
  function ChooseNext(rs: seq<Range>, n: nat): Option<nat>
    requires n < |rs|
  {
    if n == 0 then None
    else
      var best := ChooseNext(rs, n - 1);
      var cur, r := rs[|rs| - 1], rs[n - 1];
      var dist := cur.seekEnd - r.seekStart;
      if cur.seekStart <= r.seekStart && dist > 0.0
         && (best.None? || (best.value < |rs| && dist < cur.seekEnd - rs[best.value].seekStart))
      then Some(n - 1) else best
  }

  datatype Trim = Joinable(q: Queue) | NoOverlap(q: Queue) | CannotJoin

  predicate SamePacket(s: Stream, p: Packet, end: Packet) {
    (s.globalCorrectDts && p.dts == end.dts) || (s.globalCorrectPos && p.pos == end.pos)
  }

  predicate PastPacket(s: Stream, p: Packet, end: Packet) {
    (s.globalCorrectDts && p.dts > end.dts) || (s.globalCorrectPos && p.pos > end.pos)
  }

  // Drops packets from the next range until, and including, the packet the
  // current range ends with.
  function TrimToJoin(q: Queue, end: Packet, s: Stream): Trim
    requires |q.cum| == |q.pkts|
    decreases |q.pkts|
  {
    if |q.pkts| == 0 then NoOverlap(q)
    else
      var p := q.pkts[0];
      if q.kfLatest == Some(q.base) then CannotJoin
      else if SamePacket(s, p, end) then
        if p.dts != end.dts || p.pos != end.pos || p.pts != end.pts then CannotJoin
        else Joinable(RemoveHead(q))
      else if PastPacket(s, p, end) then NoOverlap(q)
      else TrimToJoin(RemoveHead(q), end, s)
  }

  function TrimStream(q1: Queue, q2: Queue, cfg: StreamConfig, s: Stream): Trim
    requires |q2.cum| == |q2.pkts|
  {
    if !s.globalCorrectPos && !s.globalCorrectDts then CannotJoin
    else if |q1.pkts| == 0 then Joinable(q2)
    else
      var t := TrimToJoin(q2, q1.pkts[|q1.pkts| - 1], s);
      // Only sparse streams join without a common packet.
      if t.NoOverlap? then (if cfg.eager then CannotJoin else Joinable(t.q)) else t
  }

  // What is left of the first n queues of the next range, if all can be joined.
  function TrimAll(qs1: seq<Queue>, qs2: seq<Queue>, cfg: seq<StreamConfig>, ss: seq<Stream>, n: nat): Option<seq<Queue>>
    requires n <= |qs1| == |qs2| == |cfg| == |ss|
    requires forall i :: 0 <= i < n ==> |qs2[i].cum| == |qs2[i].pkts|
  {
    if n == 0 then Some([])
    else
      var prev := TrimAll(qs1, qs2, cfg, ss, n - 1);
      if prev.None? then None
      else
        var t := TrimStream(qs1[n - 1], qs2[n - 1], cfg[n - 1], ss[n - 1]);
        if t.Joinable? then Some(prev.value + [t.q]) else None
  }

  function JoinStream(q1: Queue, q2: Queue, cfg: StreamConfig, s: Stream): Stream {
    s.(readerHead := if cfg.selected && s.readerHead.None? && |q2.pkts| > 0 then Some(q1.End()) else s.readerHead,
       skipToKeyframe := false,
       refreshing := cfg.selected)
  }

  function JoinAll(qs1: seq<Queue>, qs2: seq<Queue>): (r: seq<Queue>)
    requires |qs1| == |qs2|
    ensures |r| == |qs1|
  {
    seq(|qs1|, n requires 0 <= n < |qs1| => Join(qs1[n], qs2[n]))
  }

  function JoinStreams(qs1: seq<Queue>, qs2: seq<Queue>, cfg: seq<StreamConfig>, ss: seq<Stream>): (r: seq<Stream>)
    requires |qs1| == |qs2| == |cfg| == |ss|
    ensures |r| == |ss|
  {
    seq(|ss|, n requires 0 <= n < |ss| => JoinStream(qs1[n], qs2[n], cfg[n], ss[n]))
  }

  // A successful join with range i, before range i is discarded.
  function JoinWith(c: State, i: nat, qs2: seq<Queue>): State
    requires c.Shape() && i < c.Last() && |qs2| == |c.cfg|
  {
    var cur := c.ranges[c.Last()];
    var joined := cur.(queues := JoinAll(cur.queues, qs2));
    c.(ranges := c.ranges[c.Last() := UpdateSeekRanges(joined, c.cfg)],
       streams := JoinStreams(cur.queues, qs2, c.cfg, c.streams),
       seeking := true, seekPts := c.ranges[i].seekEnd - 1.0)
  }

  // attempt_range_joining()
  function AttemptJoin(c: State): State
    requires c.Shape()
  {
    var next := ChooseNext(c.ranges, c.Last());
    if next.None? || next.value >= c.Last() then c
    else
      var i := next.value;
      var qs2 := TrimAll(c.ranges[c.Last()].queues, c.ranges[i].queues, c.cfg, c.streams, |c.cfg|);
      var c1 := if qs2.Some? && |qs2.value| == |c.cfg| then JoinWith(c, i, qs2.value) else c;
      FreeEmptyRanges(WithRange(c1, i, ClearRange(c1.ranges[i], c.cfg)))
  }

  // --- Adding packets ---

  // adjust_seek_range_on_packet()
  function AdjustSeekRange(c: State, n: nat, dp: Option<nat>): State
    requires c.Shape() && n < |c.cfg|
  {
    if !c.opts.seekableCache then c
    else
      var r := c.ranges[c.Last()];
      var q := r.queues[n];
      var r' := SetQueue(r, n, AdjustQueue(q, dp, c.cfg[n].preroll));
      if NeedsUpdate(q, dp, r.seekEnd) && c.cfg[n].eager
      then AttemptJoin(WithRange(c, c.Last(), UpdateSeekRanges(r', c.cfg)))
      else WithRange(c, c.Last(), r')
  }

  // For media types other than video, pts and dts are the same thing.
  function Stored(p: Packet, cfg: StreamConfig): Packet {
    if !cfg.video && p.pts == NOPTS then p.(pts := p.dts) else p
  }

  // Whether a refresh is over once packet p was seen.
  predicate StillRefreshing(q: Queue, p: Packet) {
    if q.correctDts then p.dts < q.lastDts
    else if q.correctPos then p.pos < q.lastPos
    else false
  }

  // add_packet_locked() up to the seek range: the packet is really appended.
  function AppendPacket(c: State, n: nat, p: Packet): State
    requires c.Shape() && n < |c.cfg|
  {
    var r, s := c.ranges[c.Last()], c.streams[n];
    var q := Append(r.queues[n], Stored(p, c.cfg[n]));
    var starts := s.readerHead.None? && (!s.skipToKeyframe || p.keyframe);
    var s' := s.(globalCorrectPos := s.globalCorrectPos && q.correctPos,
                 globalCorrectDts := s.globalCorrectDts && q.correctDts,
                 readerHead := if starts then Some(r.queues[n].End()) else s.readerHead,
                 skipToKeyframe := if starts then false else s.skipToKeyframe,
                 eof := false);
    WithStream(WithRange(c, c.Last(), SetQueue(r, n, q)), n, s')
  }

  function AddPacket(c: State, n: nat, p: Packet): State
    requires c.Shape() && n < |c.cfg|
  {
    var s := c.streams[n];
    if p.len == 0 || !c.cfg[n].selected || c.seeking then c
    else if s.refreshing then
      WithStream(c, n, s.(refreshing := StillRefreshing(c.ranges[c.Last()].queues[n], p)))
    else
      AdjustSeekRange(AppendPacket(c, n, p), n, Some(c.ranges[c.Last()].queues[n].End()))
  }

  // mark_stream_eof()
  function MarkEof(c: State, n: nat): State
    requires c.Shape() && n < |c.cfg|
  {
    if c.streams[n].eof then c
    else AdjustSeekRange(WithStream(c, n, c.streams[n].(eof := true)), n, None)
  }

  // --- Seeking ---

  // The first range that contains pts. A range at the beginning (end) of the
  // file contains everything before (after) it.
  function FindCacheRange(c: State, pts: real, n: nat): (k: nat)
    requires n <= |c.ranges|
    ensures n <= k <= |c.ranges|
    decreases |c.ranges| - n
  {
    if n == |c.ranges| || InRange(c.ranges[n], pts) then n else FindCacheRange(c, pts, n + 1)
  }

  predicate InRange(r: Range, pts: real) {
    && r.seekStart != NOPTS
    && (pts >= r.seekStart || r.isBof)
    && (pts <= r.seekEnd || r.isEof)
  }

  function QueueTarget(q: Queue, cfg: StreamConfig, pts: real, forward: bool): Option<nat> {
    FindSeekTarget(q.pkts, q.base, q.index, cfg.preroll, pts, forward)
  }

  datatype SeekPoint = SeekPoint(pts: real, forward: bool)

  // adjust_cache_seek_target(): the position the selected video stream can
  // really seek to.
  function AdjustTarget(r: Range, cfg: seq<StreamConfig>, to: SeekPoint, n: nat): SeekPoint
    requires n <= |r.queues| == |cfg|
    decreases |cfg| - n
  {
    if n == |cfg| then to
    else if !(cfg[n].selected && cfg[n].video) then AdjustTarget(r, cfg, to, n + 1)
    else
      var q := r.queues[n];
      var t := QueueTarget(q, cfg[n], to.pts, to.forward);
      if t.None? || t.value >= |q.pkts| || RunMin(q.pkts, t.value) == NOPTS then to
      else SeekPoint(RunMin(q.pkts, t.value), false)
  }

  // The packets before the first keyframe are no use to a range that is left.
  function TrimNonKeyframes(q: Queue): Queue
    requires |q.cum| == |q.pkts|
    decreases |q.pkts|
  {
    if |q.pkts| == 0 || q.pkts[0].keyframe then q else TrimNonKeyframes(RemoveHead(q))
  }

  function TrimRange(r: Range, cfg: seq<StreamConfig>): Range
    requires QueuesShape(r, cfg)
  {
    r.(queues := seq(|r.queues|, n requires 0 <= n < |r.queues| && QueuesShape(r, cfg) => TrimNonKeyframes(r.queues[n])))
  }

  predicate Unjoinable(c: State)
    requires |c.streams| == |c.cfg|
  {
    exists n :: 0 <= n < |c.cfg| && c.cfg[n].selected
                && !c.streams[n].globalCorrectDts && !c.streams[n].globalCorrectPos
  }

  // switch_current_range(): the range at i becomes the current one.
  function SwitchRange(c: State, i: nat): State
    requires c.Shape() && i < c.Last()
  {
    var prev := TrimRange(c.ranges[c.Last()], c.cfg);
    var prev' := if Unjoinable(c) then ClearRange(prev, c.cfg) else prev;
    var rs := c.ranges[..i] + c.ranges[i + 1..c.Last()] + [prev'] + [c.ranges[i]];
    FreeEmptyRanges(c.(ranges := rs,
                       streams := seq(|c.streams|, n requires 0 <= n < |c.streams| =>
                         c.streams[n].(refreshing := false, eof := false))))
  }

  function SeekStreams(c: State, r: Range, to: SeekPoint): (ss: seq<Stream>)
    requires |c.streams| == |c.cfg| == |r.queues|
    ensures |ss| == |c.streams|
  {
    seq(|c.streams|, n requires 0 <= n < |c.streams| && |c.streams| == |c.cfg| == |r.queues| =>
      var t := QueueTarget(r.queues[n], c.cfg[n], to.pts, to.forward);
      c.streams[n].(readerHead := if t.Some? then Some(r.queues[n].base + t.value) else None,
                    skipToKeyframe := t.None?))
  }

  // execute_cache_seek()
  function CacheSeek(c: State, i: nat, to: SeekPoint, hr: bool): State
    requires c.Shape() && i < |c.ranges|
  {
    var r := c.ranges[i];
    var to' := if hr then to else AdjustTarget(r, c.cfg, to, 0);
    var c1 := c.(streams := SeekStreams(c, r, to'));
    if i == c.Last() then c1
    else
      var c2 := SwitchRange(c1, i);
      c2.(seeking := true, seekPts := r.seekEnd - 1.0,
          streams := seq(|c2.streams|, n requires 0 <= n < |c2.streams| =>
            if n < |c.cfg| then c2.streams[n].(refreshing := c.cfg[n].selected) else c2.streams[n]))
  }

  function NewRange(cfg: seq<StreamConfig>): Range {
    Range(seq(|cfg|, n => NewQueue()), NOPTS, NOPTS, false, false)
  }

  // switch_to_fresh_cache_range()
  function FreshRange(c: State): State
    requires c.Shape()
  {
    if !c.opts.seekableCache then WithRange(c, c.Last(), ClearRange(c.ranges[c.Last()], c.cfg))
    else
      var c1 := c.(ranges := c.ranges[..c.Last()] + [NewRange(c.cfg), c.ranges[c.Last()]]);
      SwitchRange(c1, c.Last())
  }

  // clear_reader_state()
  function ClearReaders(c: State): State {
    c.(streams := seq(|c.streams|, n requires 0 <= n < |c.streams| =>
         c.streams[n].(readerHead := None, eof := false, skipToKeyframe := false)))
  }

  // queue_seek(), for a position that is not a factor. `hr` is SEEK_HR, and
  // `cached` is SEEK_CACHED; `seekable` tells if the demuxer can seek.
  function QueueSeek(c: State, to: SeekPoint, hr: bool, cached: bool, seekable: bool): State
    requires c.Shape()
  {
    var k := if c.opts.seekableCache then FindCacheRange(c, to.pts, 0) else |c.ranges|;
    if to.pts == NOPTS then c
    else if k < |c.ranges| then CacheSeek(ClearReaders(c), k, to, hr)
    else if cached || !seekable then c
    else FreshRange(ClearReaders(c)).(seeking := true, seekPts := to.pts)
  }
}
