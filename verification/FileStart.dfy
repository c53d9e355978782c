// Ranges at the beginning of the file.
//
// A queue that starts at the beginning of the file does not restrict where the
// range starts. When it loses its mark, it does; but the span of the range is
// only recomputed when pruning moved the start. Here is exactly when the span
// still covers the starts of the queues after that, and exactly when a range is
// rightly taken to reach back to the beginning of the file.

module FileStart {
  import opened Timestamps
  import opened Wrappers
  import opened Queues
  import opened Ranges
  import opened Cache
  import opened Pruning
  import opened CacheRuns

  // --- Queues that start after their range ---

  // The queue only restricts the range once it has lost its mark.
  predicate HiddenStart(r: Range, n: nat, cfg: seq<StreamConfig>)
    requires n < |r.queues| == |cfg|
  {
    var q := r.queues[n];
    Counts(cfg[n]) && q.isBof && q.seekStart != NOPTS && r.seekStart != NOPTS && q.seekStart > r.seekStart
  }

  // A round of pruning leaves the range covering the starts of its queues if and
  // only if it prunes a keyframe, or the queue does not start after the range.
  lemma PruneCoversIff(r: Range, n: nat, reader: Option<nat>, seekable: bool, cfg: seq<StreamConfig>)
    requires QueuesShape(r, cfg) && n < |cfg| && StartsCovered(r, cfg) && Prunable(r.queues[n], reader)
    requires reader.Some? ==> r.queues[n].base <= reader.value
    ensures |r.queues| == |cfg| && |r.queues[n].cum| == |r.queues[n].pkts|
    ensures var p := PruneQueue(r.queues[n], reader, seekable, cfg[n].preroll);
            StartsCovered(PrunedRange(r, n, p, cfg), cfg)
            <==> PrunesKeyframe(r.queues[n], reader, seekable) || !HiddenStart(r, n, cfg)
  {
    var q := r.queues[n];
    PruneQueueIs(q, reader, seekable, cfg[n].preroll);
    var p := PruneQueue(q, reader, seekable, cfg[n].preroll);
    hide PruneQueue, PruneStop, StartFrom, UpdateSeekRanges;
    var r1 := SetQueue(r, n, p.q);
    if p.kfPruned && StartMoved(r, p.q) {
      UpdatedSpan(r1, cfg);
    } else if !p.kfPruned && HiddenStart(r, n, cfg) {
      assert Counts(cfg[n]) && !r1.queues[n].isBof;
    }
  }

  // Making a range the current one no longer removes the packets before the
  // first keyframe. The old range still covers the starts of its queues if and
  // only if no queue that starts after it had any.
  lemma TrimCoversIff(r: Range, cfg: seq<StreamConfig>)
    requires QueuesShape(r, cfg) && StartsCovered(r, cfg)
    ensures StartsCovered(TrimRange(r, cfg), cfg)
            <==> forall n :: 0 <= n < |cfg| && HiddenStart(r, n, cfg) ==> BeginsWithKeyframe(r.queues[n])
  {
    var t := TrimRange(r, cfg);
    forall n | 0 <= n < |cfg|
      ensures t.queues[n].seekStart == r.queues[n].seekStart
      ensures t.queues[n].isBof == (r.queues[n].isBof && BeginsWithKeyframe(r.queues[n]))
    {
      TrimmedBof(r.queues[n]);
    }
    if n :| 0 <= n < |cfg| && HiddenStart(r, n, cfg) && !BeginsWithKeyframe(r.queues[n]) {
      assert Counts(cfg[n]) && !t.queues[n].isBof;
    }
  }

  predicate BeginsWithKeyframe(q: Queue) {
    |q.pkts| == 0 || q.pkts[0].keyframe
  }

  lemma {:induction false} TrimmedBof(q: Queue)
    requires |q.cum| == |q.pkts|
    ensures var t := TrimNonKeyframes(q);
            && t.seekStart == q.seekStart && (t.isBof == (q.isBof && BeginsWithKeyframe(q)))
    decreases |q.pkts|
  {
    if !BeginsWithKeyframe(q) {
      TrimmedBof(RemoveHead(q));
    }
  }

  // Marking the queues takes the mark away from those whose stream is being
  // refreshed.
  lemma MarkCoversIff(c: State)
    requires c.Shape() && StartsCovered(c.ranges[c.Last()], c.cfg)
    ensures |c.ranges[c.Last()].queues| == |c.cfg| && |MarkBofStep(c).ranges[c.Last()].queues| == |c.cfg|
    ensures StartsCovered(MarkBofStep(c).ranges[c.Last()], c.cfg)
            <==> forall n :: 0 <= n < |c.cfg| && HiddenStart(c.ranges[c.Last()], n, c.cfg) ==> !c.streams[n].refreshing
  {
    var r, r' := c.ranges[c.Last()], MarkBofStep(c).ranges[c.Last()];
    if n :| 0 <= n < |c.cfg| && HiddenStart(r, n, c.cfg) && c.streams[n].refreshing {
      assert Counts(c.cfg[n]) && !r'.queues[n].isBof;
    }
  }

  // --- Ranges that only seem to reach back to the beginning of the file ---

  // A range that takes all positions before its end has all queues at the
  // beginning of the file.
  ghost predicate HonestBof(r: Range, cfg: seq<StreamConfig>)
    requires |r.queues| == |cfg|
  {
    r.seekStart != NOPTS && r.isBof ==> AllBof(r.queues, cfg, |cfg|)
  }

  lemma UpdatedIsHonest(r: Range, cfg: seq<StreamConfig>)
    requires |r.queues| == |cfg|
    ensures HonestBof(UpdateSeekRanges(r, cfg), cfg)
  {
  }

  // A round of pruning takes the mark off the queue, so it has to be followed by
  // an update. It is if and only if a keyframe was pruned and the next run starts
  // after the range.
  lemma PruneHonestIff(r: Range, n: nat, reader: Option<nat>, seekable: bool, cfg: seq<StreamConfig>)
    requires QueuesShape(r, cfg) && n < |cfg| && Counts(cfg[n]) && HonestBof(r, cfg) && r.seekStart != NOPTS && r.isBof
    requires Prunable(r.queues[n], reader) && (reader.Some? ==> r.queues[n].base <= reader.value)
    ensures |r.queues| == |cfg| && |r.queues[n].cum| == |r.queues[n].pkts|
    ensures var q := r.queues[n];
            var start := StartFrom(q.pkts, PruneStop(q, reader, seekable), cfg[n].preroll);
            HonestBof(PrunedRange(r, n, PruneQueue(q, reader, seekable, cfg[n].preroll), cfg), cfg)
            <==> PrunesKeyframe(q, reader, seekable) && (start == NOPTS || start > r.seekStart)
  {
    var q := r.queues[n];
    PruneQueueIs(q, reader, seekable, cfg[n].preroll);
    var p := PruneQueue(q, reader, seekable, cfg[n].preroll);
    hide PruneQueue, PruneStop, StartFrom, UpdateSeekRanges, PrunesKeyframe;
    var r1 := SetQueue(r, n, p.q);
    UpdatedIsHonest(r1, cfg);
    assert !AllBof(r1.queues, cfg, |cfg|);
  }

  lemma TrimHonestIff(r: Range, cfg: seq<StreamConfig>)
    requires QueuesShape(r, cfg) && HonestBof(r, cfg) && r.seekStart != NOPTS && r.isBof
    ensures HonestBof(TrimRange(r, cfg), cfg)
            <==> forall n :: 0 <= n < |cfg| && Counts(cfg[n]) ==> BeginsWithKeyframe(r.queues[n])
  {
    var t := TrimRange(r, cfg);
    forall n | 0 <= n < |cfg|
      ensures t.queues[n].isBof == (r.queues[n].isBof && BeginsWithKeyframe(r.queues[n]))
    {
      TrimmedBof(r.queues[n]);
    }
    if n :| 0 <= n < |cfg| && Counts(cfg[n]) && !BeginsWithKeyframe(r.queues[n]) {
      assert !t.queues[n].isBof;
    }
  }

  lemma MarkHonestIff(c: State)
    requires c.Shape() && c.ranges[c.Last()].seekStart != NOPTS && c.ranges[c.Last()].isBof
    ensures |MarkBofStep(c).ranges[c.Last()].queues| == |c.cfg|
    ensures HonestBof(MarkBofStep(c).ranges[c.Last()], c.cfg)
            <==> forall n :: 0 <= n < |c.cfg| && Counts(c.cfg[n]) ==> !c.streams[n].refreshing
  {
    var r' := MarkBofStep(c).ranges[c.Last()];
    if n :| 0 <= n < |c.cfg| && Counts(c.cfg[n]) && c.streams[n].refreshing {
      assert !r'.queues[n].isBof;
    }
  }
}
