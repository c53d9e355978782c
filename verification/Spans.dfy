// What the span of a range is, told from its queues, and what the span of a queue is,
// told from its packets.

module Spans {
  import opened Timestamps
  import opened Wrappers
  import opened Packets
  import opened Queues
  import opened Ranges
  import opened Cache
  import opened Pruning

  // The greatest (least) of some times, or none.
  ghost predicate IsGreatest(x: real, times: set<real>) {
    if times == {} then x == NOPTS else x in times && forall t :: t in times ==> t <= x
  }

  ghost predicate IsLeast(x: real, times: set<real>) {
    if times == {} then x == NOPTS else x in times && forall t :: t in times ==> x <= t
  }

  lemma AddTime(x: real, times: set<real>, t: real)
    requires NOPTS !in times
    ensures var added := times + (if t == NOPTS then {} else {t});
            && (IsGreatest(x, times) ==> IsGreatest(PtsMax(x, t), added))
            && (IsLeast(x, times) ==> IsLeast(PtsMin(x, t), added))
  {
  }

  // --- Ranges ---

  // The times that the queues which count start and end at. Those that begin the
  // file, or end it, only matter if all of them do.
  ghost function StartTimes(qs: seq<Queue>, cfg: seq<StreamConfig>, n: nat, bof: bool): set<real>
    requires n <= |qs| == |cfg|
  {
    set i | 0 <= i < n && cfg[i].selected && cfg[i].eager && qs[i].isBof == bof && qs[i].seekStart != NOPTS :: qs[i].seekStart
  }

  ghost function EndTimes(qs: seq<Queue>, cfg: seq<StreamConfig>, n: nat, eof: bool): set<real>
    requires n <= |qs| == |cfg|
  {
    set i | 0 <= i < n && cfg[i].selected && cfg[i].eager && qs[i].isEof == eof && qs[i].seekEnd != NOPTS :: qs[i].seekEnd
  }

  // The times up to which packets of sparse streams are missing.
  ghost function MissingTimes(qs: seq<Queue>, cfg: seq<StreamConfig>, n: nat): set<real>
    requires n <= |qs| == |cfg|
  {
    set i | 0 <= i < n && cfg[i].selected && !cfg[i].eager && qs[i].lastPruned != NOPTS :: qs[i].lastPruned + 0.1
  }

  lemma {:induction false} StartsAre(qs: seq<Queue>, cfg: seq<StreamConfig>, n: nat)
    requires n <= |qs| == |cfg|
    ensures IsGreatest(MaxStart(qs, cfg, n), StartTimes(qs, cfg, n, false))
    ensures IsLeast(MinBofStart(qs, cfg, n), StartTimes(qs, cfg, n, true))
  {
    if n > 0 {
      hide IsGreatest, IsLeast, PtsMax, PtsMin;
      StartsAre(qs, cfg, n - 1);
      var q := qs[n - 1];
      var times := StartTimes(qs, cfg, n - 1, q.isBof);
      var x := if Counts(cfg[n - 1]) then q.seekStart else NOPTS;
      assert StartTimes(qs, cfg, n, q.isBof) == times + (if x == NOPTS then {} else {x});
      assert StartTimes(qs, cfg, n, !q.isBof) == StartTimes(qs, cfg, n - 1, !q.isBof);
      assert times + {} == times;
      AddTime(MaxStart(qs, cfg, n - 1), times, x);
      AddTime(MinBofStart(qs, cfg, n - 1), times, x);
    }
  }

  lemma {:induction false} EndsAre(qs: seq<Queue>, cfg: seq<StreamConfig>, n: nat)
    requires n <= |qs| == |cfg|
    ensures IsLeast(MinEnd(qs, cfg, n), EndTimes(qs, cfg, n, false))
    ensures IsGreatest(MaxEofEnd(qs, cfg, n), EndTimes(qs, cfg, n, true))
  {
    if n > 0 {
      hide IsGreatest, IsLeast, PtsMax, PtsMin;
      EndsAre(qs, cfg, n - 1);
      var q := qs[n - 1];
      var times := EndTimes(qs, cfg, n - 1, q.isEof);
      var x := if Counts(cfg[n - 1]) then q.seekEnd else NOPTS;
      assert EndTimes(qs, cfg, n, q.isEof) == times + (if x == NOPTS then {} else {x});
      assert EndTimes(qs, cfg, n, !q.isEof) == EndTimes(qs, cfg, n - 1, !q.isEof);
      assert times + {} == times;
      AddTime(MinEnd(qs, cfg, n - 1), times, x);
      AddTime(MaxEofEnd(qs, cfg, n - 1), times, x);
    }
  }

  lemma {:induction false} MissingIs(qs: seq<Queue>, cfg: seq<StreamConfig>, start: real, n: nat)
    requires n <= |qs| == |cfg|
    requires forall t :: t in MissingTimes(qs, cfg, n) ==> t > NOPTS
    ensures var s := SparseStart(qs, cfg, start, n);
            if start == NOPTS then s == NOPTS else s != NOPTS && IsGreatest(s, {start} + MissingTimes(qs, cfg, n))
  {
    if n > 0 {
      var q := qs[n - 1];
      var x := if cfg[n - 1].selected && !cfg[n - 1].eager && q.lastPruned != NOPTS then {q.lastPruned + 0.1} else {};
      assert MissingTimes(qs, cfg, n) == MissingTimes(qs, cfg, n - 1) + x;
      MissingIs(qs, cfg, start, n - 1);
    }
  }

  ghost predicate BeginsFile(qs: seq<Queue>, cfg: seq<StreamConfig>, n: nat)
    requires n <= |qs| == |cfg|
  {
    forall i :: 0 <= i < n && cfg[i].selected && cfg[i].eager ==> qs[i].isBof
  }

  ghost predicate EndsFile(qs: seq<Queue>, cfg: seq<StreamConfig>, n: nat)
    requires n <= |qs| == |cfg|
  {
    forall i :: 0 <= i < n && cfg[i].selected && cfg[i].eager ==> qs[i].isEof
  }

  // All queues have to have begun, but the range that begins the file begins with the
  // first of them. What was pruned of sparse streams is not in it.
  ghost predicate IsStart(x: real, qs: seq<Queue>, cfg: seq<StreamConfig>)
    requires |qs| == |cfg|
  {
    exists m ::
      && (if BeginsFile(qs, cfg, |cfg|) then IsLeast(m, StartTimes(qs, cfg, |cfg|, true))
          else IsGreatest(m, StartTimes(qs, cfg, |cfg|, false)))
      && if m == NOPTS then x == NOPTS else IsGreatest(x, {m} + MissingTimes(qs, cfg, |cfg|))
  }

  // It ends where the first queue ends, but the range that ends the file ends with the
  // last of them.
  ghost predicate IsEnd(x: real, qs: seq<Queue>, cfg: seq<StreamConfig>)
    requires |qs| == |cfg|
  {
    if EndsFile(qs, cfg, |cfg|) then IsGreatest(x, EndTimes(qs, cfg, |cfg|, true))
    else IsLeast(x, EndTimes(qs, cfg, |cfg|, false))
  }

  // A queue that can be sought in: it has a span, or a single time, or it has
  // nothing and there is nothing to come.
  predicate CanSeek(q: Queue) {
    || q.seekStart < q.seekEnd
    || (q.seekStart == q.seekEnd && q.seekStart != NOPTS)
    || (q.isEof && q.pkts == [])
  }

  // A range that has no other queues has the span they have in common.
  lemma SpanIs(r: Range, cfg: seq<StreamConfig>)
    requires |r.queues| == |cfg|
    requires forall i :: 0 <= i < |cfg| && cfg[i].selected && cfg[i].eager ==> CanSeek(r.queues[i])
    requires forall t :: t in MissingTimes(r.queues, cfg, |cfg|) ==> t > NOPTS
    ensures exists start, end ::
              && IsStart(start, r.queues, cfg) && IsEnd(end, r.queues, cfg)
              && UpdateSeekRanges(r, cfg)
                 == Range(r.queues, if start < end then start else NOPTS, if start < end then end else NOPTS,
                          BeginsFile(r.queues, cfg, |cfg|), EndsFile(r.queues, cfg, |cfg|))
  {
    hide MaxStart, MinBofStart, MinEnd, MaxEofEnd, SparseStart, IsGreatest, IsLeast, StartTimes, EndTimes, MissingTimes;
    var qs, n := r.queues, |cfg|;
    StartsAre(qs, cfg, n);
    EndsAre(qs, cfg, n);
    assert AllBof(qs, cfg, n) == BeginsFile(qs, cfg, n) && AllEof(qs, cfg, n) == EndsFile(qs, cfg, n);
    var m := if AllBof(qs, cfg, n) then MinBofStart(qs, cfg, n) else MaxStart(qs, cfg, n);
    MissingIs(qs, cfg, m, n);
    var end := if AllEof(qs, cfg, n) then MaxEofEnd(qs, cfg, n) else MinEnd(qs, cfg, n);
    assert IsStart(SparseStart(qs, cfg, m, n), qs, cfg);
    assert IsEnd(end, qs, cfg);
  }

  // One queue that cannot be sought in is enough for the range. Those behind the
  // first such queue are not looked at.
  lemma NoSpan(r: Range, cfg: seq<StreamConfig>, k: nat)
    requires |r.queues| == |cfg| && k < |cfg| && cfg[k].selected && cfg[k].eager && !CanSeek(r.queues[k])
    requires forall i :: 0 <= i < k && cfg[i].selected && cfg[i].eager ==> CanSeek(r.queues[i])
    ensures UpdateSeekRanges(r, cfg)
            == Range(r.queues, NOPTS, NOPTS, BeginsFile(r.queues, cfg, k + 1), EndsFile(r.queues, cfg, k + 1))
  {
    assert FirstBad(r.queues, cfg, 0) == k;
  }

  // Two ranges with the same starts and, where it matters, the same ends.
  lemma {:induction false} SameBounds(qs: seq<Queue>, cfg: seq<StreamConfig>, n: nat, q: Queue, start: real, m: nat)
    requires n < |qs| == |cfg| && m <= |qs| && SameStart(qs[n], q, cfg[n])
    ensures MaxStart(qs[n := q], cfg, m) == MaxStart(qs, cfg, m)
    ensures MinBofStart(qs[n := q], cfg, m) == MinBofStart(qs, cfg, m)
    ensures SparseStart(qs[n := q], cfg, start, m) == SparseStart(qs, cfg, start, m)
  {
    if m > 0 {
      SameBounds(qs, cfg, n, q, start, m - 1);
    }
  }

  ghost predicate SameStart(q: Queue, p: Queue, cfg: StreamConfig) {
    p.lastPruned == q.lastPruned && (Counts(cfg) ==> p.seekStart == q.seekStart && p.isBof == q.isBof)
  }

  lemma {:induction false} SameEnds(qs: seq<Queue>, cfg: seq<StreamConfig>, n: nat, q: Queue, m: nat)
    requires n < |qs| == |cfg| && m <= |qs|
    requires Counts(cfg[n]) ==> q.isEof == qs[n].isEof && q.seekEnd == qs[n].seekEnd
    ensures MinEnd(qs[n := q], cfg, m) == MinEnd(qs, cfg, m)
    ensures MaxEofEnd(qs[n := q], cfg, m) == MaxEofEnd(qs, cfg, m)
  {
    if m > 0 {
      SameEnds(qs, cfg, n, q, m - 1);
    }
  }

  // A queue that ends behind the range does not end it.
  lemma {:induction false} LaterEnd(qs: seq<Queue>, cfg: seq<StreamConfig>, n: nat, q: Queue, m: nat)
    requires n < |qs| == |cfg| && m <= |qs| && !q.isEof && !qs[n].isEof
    requires qs[n].seekEnd <= q.seekEnd && qs[n].seekEnd != NOPTS && q.seekEnd != NOPTS
    ensures MaxEofEnd(qs[n := q], cfg, m) == MaxEofEnd(qs, cfg, m)
    ensures var e, e' := MinEnd(qs, cfg, m), MinEnd(qs[n := q], cfg, m);
            && (e == NOPTS <==> e' == NOPTS) && e <= e' && (e < qs[n].seekEnd ==> e' == e)
  {
    if m > 0 {
      LaterEnd(qs, cfg, n, q, m - 1);
    }
  }

  lemma {:induction false} SameFirstBad(qs: seq<Queue>, cfg: seq<StreamConfig>, n: nat, q: Queue, i: nat)
    requires n < |qs| == |cfg| && i <= |qs| && (Counts(cfg[n]) ==> BadSpan(q) == BadSpan(qs[n]))
    ensures FirstBad(qs[n := q], cfg, i) == FirstBad(qs, cfg, i)
    decreases |qs| - i
  {
    hide BadSpan;
    if i < |qs| {
      SameFirstBad(qs, cfg, n, q, i + 1);
    }
  }

  // The span is the same with another queue in the range.
  lemma {:induction false} SameSpan(r: Range, cfg: seq<StreamConfig>, n: nat, q: Queue)
    requires n < |r.queues| == |cfg| && UpdateSeekRanges(r, cfg) == r
    requires SameStart(r.queues[n], q, cfg[n])
    requires Counts(cfg[n]) ==> q.isEof == r.queues[n].isEof && BadSpan(q) == BadSpan(r.queues[n])
    requires var qs, m := r.queues, |cfg|;
             || (Counts(cfg[n]) ==> q.seekEnd == qs[n].seekEnd)
             || (!AllEof(qs, cfg, m) && MinEnd(qs[n := q], cfg, m) == MinEnd(qs, cfg, m))
    ensures UpdateSeekRanges(SetQueue(r, n, q), cfg) == SetQueue(r, n, q)
  {
    hide MaxStart, MinBofStart, MinEnd, MaxEofEnd, SparseStart, FirstBad, BadSpan;
    var qs, m := r.queues, |cfg|;
    SameBounds(qs, cfg, n, q, if AllBof(qs, cfg, m) then MinBofStart(qs, cfg, m) else MaxStart(qs, cfg, m), m);
    SameFirstBad(qs, cfg, n, q, 0);
    if Counts(cfg[n]) ==> q.seekEnd == qs[n].seekEnd {
      SameEnds(qs, cfg, n, q, m);
    }
    assert forall i: nat :: i <= m ==> AllBof(qs[n := q], cfg, i) == AllBof(qs, cfg, i);
    assert forall i: nat :: i <= m ==> AllEof(qs[n := q], cfg, i) == AllEof(qs, cfg, i);
  }

  // As long as there is no reason to recompute the span of a range, that would not
  // change it. (A queue that had been at the end of the file before has nothing new.)
  lemma FastIsFull(r: Range, cfg: seq<StreamConfig>, n: nat, dp: Option<nat>)
    requires |r.queues| == |cfg| && n < |cfg| && UpdateSeekRanges(r, cfg) == r && r.seekEnd >= NOPTS
    requires !(NeedsUpdate(r.queues[n], dp, r.seekEnd) && cfg[n].eager)
    requires dp.Some? || !Extends(r.queues[n], dp)
    ensures var r' := SetQueue(r, n, AdjustQueue(r.queues[n], dp, cfg[n].preroll));
            UpdateSeekRanges(r', cfg) == r'
  {
    hide MaxStart, MinBofStart, MinEnd, MaxEofEnd, SparseStart, LatestMin, LatestMax, MovesKeyframe;
    var qs := r.queues;
    var q, q' := qs[n], AdjustQueue(qs[n], dp, cfg[n].preroll);
    if Counts(cfg[n]) && Extends(q, dp) {
      LaterEnd(qs, cfg, n, q', |cfg|);
    }
    SameSpan(r, cfg, n, q');
  }

  // What was pruned of a sparse stream is no longer in the range: if it can be sought
  // in, it starts after the run that is gone, or with what is left.
  lemma PrunedIsOut(r: Range, cfg: seq<StreamConfig>, n: nat, reader: Option<nat>, seekable: bool)
    requires |r.queues| == |cfg| && n < |cfg| && cfg[n].selected && !cfg[n].eager
    requires var q := r.queues[n]; |q.cum| == |q.pkts| && q.seekStart >= NOPTS
    requires forall m :: 0 <= m < |cfg| ==> r.queues[m].lastPruned >= NOPTS
    ensures var q, p := r.queues[n], PruneQueue(r.queues[n], reader, seekable, cfg[n].preroll);
            var u := PrunedRange(r, n, p, cfg);
            p.kfPruned && q.seekStart != NOPTS && u.seekStart != NOPTS ==>
              u.seekStart >= q.seekStart + 0.1 || (p.q.seekStart != NOPTS && u.seekStart >= p.q.seekStart)
  {
    hide PruneQueue, MaxStart, MinBofStart, MinEnd, MaxEofEnd, SparseStart, FirstBad;
    var q, p := r.queues[n], PruneQueue(r.queues[n], reader, seekable, cfg[n].preroll);
    PruneQueueKeeps(q, reader, seekable, cfg[n].preroll);
    var qs, m := r.queues[n := p.q], |cfg|;
    if p.kfPruned && q.seekStart != NOPTS && StartMoved(r, p.q) {
      assert qs[n].lastPruned + 0.1 in MissingTimes(qs, cfg, m);
      MissingIs(qs, cfg, if AllBof(qs, cfg, m) then MinBofStart(qs, cfg, m) else MaxStart(qs, cfg, m), m);
    }
  }

  // --- Queues ---

  ghost function RunTimes(q: Queue, i: nat): set<real>
    requires i < |q.pkts|
  {
    set j | i <= j < RunEnd(q.pkts, i) && TimeOf(q.pkts[j]) != NOPTS :: TimeOf(q.pkts[j])
  }

  lemma RunBounds(q: Queue, i: nat)
    requires i < |q.pkts|
    ensures IsLeast(RunMin(q.pkts, i), RunTimes(q, i)) && IsGreatest(RunMax(q.pkts, i), RunTimes(q, i))
  {
    hide RunEnd;
    var e := RunEnd(q.pkts, i);
    MinTimeIsLeast(q.pkts, i, e);
    MaxTimeIsGreatest(q.pkts, i, e);
    assert forall j :: i <= j < e && TimeOf(q.pkts[j]) != NOPTS ==> TimeOf(q.pkts[j]) in RunTimes(q, i);
  }

  lemma NoNopts(q: Queue, i: nat)
    requires i < |q.pkts|
    ensures NOPTS !in RunTimes(q, i)
  {
  }

  // The run of the latest keyframe is complete: the packet that came is the next
  // keyframe, or there are no more packets.
  ghost predicate Complete(q: Queue, dp: Option<nat>) {
    && q.kfLatest.Some? && q.Has(q.kfLatest.value)
    && (dp.Some? && q.Has(dp.value) ==> q.pkts[dp.value - q.base].keyframe)
  }

  // The queue starts with the first run that was completed (plus the preroll), and
  // ends with the latest time there is in the completed runs.
  lemma AdjustedSpan(q: Queue, dp: Option<nat>, preroll: real)
    ensures var a := AdjustQueue(q, dp, preroll);
            && a.isEof == dp.None?
            && if !Complete(q, dp) then a.seekStart == q.seekStart && a.seekEnd == q.seekEnd
               else
                 var run := RunTimes(q, q.kfLatest.value - q.base);
                 && IsGreatest(a.seekEnd, run + (if q.seekEnd == NOPTS then {} else {q.seekEnd}))
                 && if q.seekStart != NOPTS || run == {} then a.seekStart == q.seekStart
                    else IsLeast(a.seekStart - preroll, run)
  {
    hide RunMin, RunMax, MovesKeyframe, RunTimes;
    if Complete(q, dp) {
      var i := q.kfLatest.value - q.base;
      var run := RunTimes(q, i);
      RunBounds(q, i);
      NoNopts(q, i);
      AddTime(RunMax(q.pkts, i), run, q.seekEnd);
    }
  }

  // The span of the range is recomputed exactly when the queue got a start, came to the
  // end of the file or left it, or has a later end and may have held the range back.
  lemma NeedsUpdateIff(q: Queue, dp: Option<nat>, preroll: real, rangeEnd: real)
    requires preroll >= 0.0 && LatestMin(q) >= NOPTS
    ensures var a := AdjustQueue(q, dp, preroll);
            NeedsUpdate(q, dp, rangeEnd)
            <==> || a.isEof != q.isEof
                 || (q.seekStart == NOPTS && a.seekStart != NOPTS)
                 || (a.seekEnd != q.seekEnd && (rangeEnd == NOPTS || q.seekEnd <= rangeEnd))
  {
    hide LatestMin, LatestMax, Closes, MovesKeyframe;
  }
}
