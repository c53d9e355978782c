// Writing a cached range to a file: the streams of the range, which are queued
// separately, are interleaved again by timestamp.

module DumpMerge {
  import opened Timestamps
  import opened Wrappers
  import opened Packets
  import opened SeekTarget
  import opened Queues
  import opened Ranges
  import opened Cache
  import opened CacheInvariants
  import opened SeekSoundness
  import opened Spans

  // A packet that was written, and the stream it belongs to.
  datatype Item = Item(stream: nat, p: Packet)

  function Time(p: Packet): real {
    PtsOrDef(p.dts, p.pts)
  }

  // The end of a stream: the first keyframe at or past the end of the dump.
  predicate Stops(p: Packet, end: real) {
    Time(p) != NOPTS && end != NOPTS && Time(p) >= end && p.keyframe
  }

  // What is to be written of a stream.
  function Wanted(s: seq<Packet>, end: real): seq<Packet> {
    if |s| == 0 || Stops(s[0], end) then [] else [s[0]] + Wanted(s[1..], end)
  }

  // That is everything before the first keyframe at or past the end.
  lemma {:induction false} WantedIs(s: seq<Packet>, end: real)
    ensures var k := |Wanted(s, end)|;
            && k <= |s| && Wanted(s, end) == s[..k]
            && (k < |s| ==> s[k].keyframe && end != NOPTS && Time(s[k]) != NOPTS && Time(s[k]) >= end)
            && forall i :: 0 <= i < k && s[i].keyframe ==> end == NOPTS || Time(s[i]) == NOPTS || Time(s[i]) < end
  {
    if |s| > 0 && !Stops(s[0], end) {
      WantedIs(s[1..], end);
      assert forall i :: 1 <= i < |s| ==> s[i] == s[1..][i - 1];
    }
  }

  // What was written of stream i.
  function Of(out: seq<Item>, i: nat): seq<Packet> {
    if |out| == 0 then []
    else Of(out[..|out| - 1], i) + (if out[|out| - 1].stream == i then [out[|out| - 1].p] else [])
  }

  ghost predicate Timed(s: seq<Packet>) {
    && (forall k :: 0 <= k < |s| ==> Time(s[k]) != NOPTS)
    && (forall j, k :: 0 <= j <= k < |s| ==> Time(s[j]) <= Time(s[k]))
  }

  ghost predicate AllTimed(lists: seq<seq<Packet>>) {
    forall i :: 0 <= i < |lists| ==> Timed(lists[i])
  }

  ghost predicate InOrder(out: seq<Item>) {
    forall j, k :: 0 <= j <= k < |out| ==> Time(out[j].p) <= Time(out[k].p)
  }

  // --- What the merge keeps ---

  ghost predicate Positions(lists: seq<seq<Packet>>, pos: seq<nat>) {
    |pos| == |lists| && forall i :: 0 <= i < |lists| ==> pos[i] <= |lists[i]|
  }

  // Stream i is written up to its position.
  ghost predicate WrittenTo(s: seq<Packet>, end: real, at: nat, written: seq<Packet>)
    requires at <= |s|
  {
    written + Wanted(s[at..], end) == Wanted(s, end)
  }

  ghost predicate Written(lists: seq<seq<Packet>>, end: real, pos: seq<nat>, out: seq<Item>)
    requires Positions(lists, pos)
  {
    forall i :: 0 <= i < |lists| ==> WrittenTo(lists[i], end, pos[i], Of(out, i))
  }

  // Nothing that is left is earlier than what was written.
  ghost predicate NotLate(lists: seq<seq<Packet>>, pos: seq<nat>, out: seq<Item>)
    requires Positions(lists, pos)
  {
    forall i, k :: 0 <= i < |lists| && 0 <= k < |out| && pos[i] < |lists[i]| ==> Time(out[k].p) <= Time(lists[i][pos[i]])
  }

  function Remaining(lists: seq<seq<Packet>>, pos: seq<nat>, n: nat): nat
    requires n <= |lists| == |pos|
  {
    if n == 0 then 0
    else Remaining(lists, pos, n - 1) + (if pos[n - 1] <= |lists[n - 1]| then |lists[n - 1]| - pos[n - 1] else 0)
  }

  lemma {:induction false} RemainingLess(lists: seq<seq<Packet>>, pos: seq<nat>, to: seq<nat>, n: nat)
    requires Positions(lists, pos) && Positions(lists, to) && n <= |lists|
    requires forall i :: 0 <= i < n ==> pos[i] <= to[i]
    ensures Remaining(lists, to, n) <= Remaining(lists, pos, n)
    ensures (exists i :: 0 <= i < n && pos[i] < to[i]) ==> Remaining(lists, to, n) < Remaining(lists, pos, n)
  {
    if n > 0 {
      RemainingLess(lists, pos, to, n - 1);
    }
  }

  // A stream that reached its end has nothing left to write.
  lemma StoppedIsWritten(s: seq<Packet>, end: real, at: nat, written: seq<Packet>)
    requires at < |s| && WrittenTo(s, end, at, written) && Stops(s[at], end)
    ensures WrittenTo(s, end, |s|, written)
  {
    assert s[at..][0] == s[at];
    assert s[|s|..] == [];
  }

  lemma NextIsWritten(s: seq<Packet>, end: real, at: nat, written: seq<Packet>)
    requires at < |s| && WrittenTo(s, end, at, written) && !Stops(s[at], end)
    ensures WrittenTo(s, end, at + 1, written + [s[at]])
  {
    assert s[at..][0] == s[at] && s[at..][1..] == s[at + 1..];
    assert written + ([s[at]] + Wanted(s[at + 1..], end)) == (written + [s[at]]) + Wanted(s[at + 1..], end);
  }

  lemma OfAppend(out: seq<Item>, item: Item, i: nat)
    ensures Of(out + [item], i) == Of(out, i) + (if item.stream == i then [item.p] else [])
  {
    assert (out + [item])[..|out|] == out;
  }

  // Looks at the next packet of every stream, ends those that are to be ended,
  // and finds the earliest of the others.
  method PickNext(lists: seq<seq<Packet>>, end: real, pos: seq<nat>) returns (to: seq<nat>, next: Option<nat>)
    requires Positions(lists, pos)
    ensures Positions(lists, to)
    ensures forall i :: 0 <= i < |lists| ==>
              to[i] == if pos[i] < |lists[i]| && Stops(lists[i][pos[i]], end) then |lists[i]| else pos[i]
    ensures next.None? ==> forall i :: 0 <= i < |lists| ==> to[i] == |lists[i]|
    ensures next.Some? ==> next.value < |lists| && to[next.value] < |lists[next.value]|
    ensures next.Some? && AllTimed(lists) ==>
              forall i :: 0 <= i < |lists| && to[i] < |lists[i]| ==> Time(lists[next.value][to[next.value]]) <= Time(lists[i][to[i]])
  {
    to := pos;
    next := None;
    var nextDts := NOPTS;
    for i := 0 to |lists|
      invariant Positions(lists, to)
      invariant forall k :: 0 <= k < |lists| ==>
                  to[k] == if k < i && pos[k] < |lists[k]| && Stops(lists[k][pos[k]], end) then |lists[k]| else pos[k]
      invariant next.None? ==> forall k :: 0 <= k < i ==> to[k] == |lists[k]|
      invariant next.None? ==> nextDts == NOPTS
      invariant next.Some? ==> next.value < i && to[next.value] < |lists[next.value]|
                               && nextDts == Time(lists[next.value][to[next.value]])
      invariant next.Some? && AllTimed(lists) ==>
                  forall k :: 0 <= k < i && to[k] < |lists[k]| ==> nextDts <= Time(lists[k][to[k]])
    {
      if to[i] == |lists[i]| {
        continue;
      }
      var dp := lists[i][to[i]];
      var pdts := PtsOrDef(dp.dts, dp.pts);
      // Check for stream EOF.
      if pdts != NOPTS && end != NOPTS && pdts >= end && dp.keyframe {
        to := to[i := |lists[i]|];
        continue;
      }
      if pdts == NOPTS || nextDts == NOPTS || pdts < nextDts {
        nextDts := pdts;
        next := Some(i);
      }
    }
  }

  // The loop of dump_cache() over one range, from the positions that were
  // seeked to. Every stream is written in order, from there up to its end. If
  // the timestamps of the streams are in order, so is the result.
  method MergeRange(lists: seq<seq<Packet>>, end: real) returns (out: seq<Item>)
    ensures forall k :: 0 <= k < |out| ==> out[k].stream < |lists|
    ensures forall i :: 0 <= i < |lists| ==> Of(out, i) == Wanted(lists[i], end)
    ensures AllTimed(lists) ==> InOrder(out)
  {
    hide Wanted, Of, Stops;
    out := [];
    var pos: seq<nat> := seq(|lists|, i => 0);
    StartWritten(lists, end, pos);
    while true
      invariant Positions(lists, pos) && Written(lists, end, pos, out)
      invariant forall k :: 0 <= k < |out| ==> out[k].stream < |lists|
      invariant AllTimed(lists) ==> InOrder(out) && NotLate(lists, pos, out)
      decreases Remaining(lists, pos, |lists|)
    {
      var to, next := PickNext(lists, end, pos);
      StopsWritten(lists, end, pos, to, out);
      RemainingLess(lists, pos, to, |lists|);
      if next.None? {
        AllWritten(lists, end, to, out);
        break;
      }
      var i := next.value;
      var dp := lists[i][to[i]];
      ItemWritten(lists, end, pos, to, out, i);
      pos := to[i := to[i] + 1];
      RemainingLess(lists, to, pos, |lists|);
      out := out + [Item(i, dp)];
    }
  }

  lemma StartWritten(lists: seq<seq<Packet>>, end: real, pos: seq<nat>)
    requires |pos| == |lists| && forall i :: 0 <= i < |pos| ==> pos[i] == 0
    ensures Positions(lists, pos) && Written(lists, end, pos, [])
  {
    forall i | 0 <= i < |lists|
      ensures WrittenTo(lists[i], end, 0, Of([], i))
    {
      assert lists[i][0..] == lists[i];
      assert [] + Wanted(lists[i], end) == Wanted(lists[i], end);
    }
  }

  lemma StopsWritten(lists: seq<seq<Packet>>, end: real, pos: seq<nat>, to: seq<nat>, out: seq<Item>)
    requires Positions(lists, pos) && Positions(lists, to) && Written(lists, end, pos, out)
    requires forall i :: 0 <= i < |lists| ==>
               to[i] == if pos[i] < |lists[i]| && Stops(lists[i][pos[i]], end) then |lists[i]| else pos[i]
    ensures Written(lists, end, to, out)
    ensures NotLate(lists, pos, out) ==> NotLate(lists, to, out)
  {
    forall i | 0 <= i < |lists|
      ensures WrittenTo(lists[i], end, to[i], Of(out, i))
    {
      assert WrittenTo(lists[i], end, pos[i], Of(out, i));
      if to[i] != pos[i] {
        StoppedIsWritten(lists[i], end, pos[i], Of(out, i));
      }
    }
  }

  lemma AllWritten(lists: seq<seq<Packet>>, end: real, pos: seq<nat>, out: seq<Item>)
    requires Positions(lists, pos) && Written(lists, end, pos, out)
    requires forall i :: 0 <= i < |lists| ==> pos[i] == |lists[i]|
    ensures forall i :: 0 <= i < |lists| ==> Of(out, i) == Wanted(lists[i], end)
  {
    forall i | 0 <= i < |lists|
      ensures Of(out, i) == Wanted(lists[i], end)
    {
      assert WrittenTo(lists[i], end, pos[i], Of(out, i));
      assert lists[i][|lists[i]|..] == [];
      assert Of(out, i) + [] == Of(out, i);
    }
  }

  // Writing the earliest packet.
  lemma ItemWritten(lists: seq<seq<Packet>>, end: real, pos: seq<nat>, to: seq<nat>, out: seq<Item>, i: nat)
    requires Positions(lists, pos) && Positions(lists, to) && Written(lists, end, to, out)
    requires i < |lists| && to[i] < |lists[i]| && !Stops(lists[i][to[i]], end)
    ensures var p := lists[i][to[i]];
            var pos', out' := to[i := to[i] + 1], out + [Item(i, p)];
            && Positions(lists, pos') && Written(lists, end, pos', out')
            && (AllTimed(lists) && InOrder(out) && NotLate(lists, to, out)
                && (forall k :: 0 <= k < |lists| && to[k] < |lists[k]| ==> Time(p) <= Time(lists[k][to[k]]))
                ==> InOrder(out') && NotLate(lists, pos', out'))
  {
    hide Wanted, Of, WrittenTo, Stops, Time;
    var p := lists[i][to[i]];
    var pos', out' := to[i := to[i] + 1], out + [Item(i, p)];
    forall k | 0 <= k < |lists|
      ensures WrittenTo(lists[k], end, pos'[k], Of(out', k))
    {
      assert WrittenTo(lists[k], end, to[k], Of(out, k));
      OfAppend(out, Item(i, p), k);
      if k == i {
        NextIsWritten(lists[i], end, to[i], Of(out, i));
      } else {
        assert Of(out, k) + [] == Of(out, k);
      }
    }
    if AllTimed(lists) && InOrder(out) && NotLate(lists, to, out)
       && forall k :: 0 <= k < |lists| && to[k] < |lists[k]| ==> Time(p) <= Time(lists[k][to[k]])
    {
      ItemInOrder(lists, to, out, i);
    }
  }

  lemma ItemInOrder(lists: seq<seq<Packet>>, to: seq<nat>, out: seq<Item>, i: nat)
    requires Positions(lists, to) && i < |lists| && to[i] < |lists[i]|
    requires AllTimed(lists) && InOrder(out) && NotLate(lists, to, out)
    requires forall k :: 0 <= k < |lists| && to[k] < |lists[k]| ==> Time(lists[i][to[i]]) <= Time(lists[k][to[k]])
    ensures var out' := out + [Item(i, lists[i][to[i]])];
            InOrder(out') && NotLate(lists, to[i := to[i] + 1], out')
  {
    hide Time;
    assert Timed(lists[i]);
  }

  // --- One range ---

  // A range that has nothing from the time span is skipped.
  predicate Overlaps(r: Range, start: real, end: real) {
    r.seekStart != NOPTS && r.seekEnd > start && !(end != NOPTS && r.seekStart >= end)
  }

  // A range that has a span is written if it starts before the end, and if all of its
  // queues that can hold it back go on after the start. (Of a range that ends the
  // file, one has to.)
  lemma OverlapsIff(r: Range, cfg: seq<StreamConfig>, start: real, end: real)
    requires |r.queues| == |cfg| && UpdateSeekRanges(r, cfg) == r && r.seekStart > NOPTS
    ensures Overlaps(r, start, end)
            <==> && (end == NOPTS || r.seekStart < end)
                 && if EndsFile(r.queues, cfg, |cfg|) then
                      exists i :: 0 <= i < |cfg| && Counts(cfg[i]) && EndsAfter(r.queues[i], start)
                    else
                      forall i :: 0 <= i < |cfg| && Counts(cfg[i]) ==> !EndsBy(r.queues[i], start)
  {
    hide MaxStart, MinBofStart, MinEnd, MaxEofEnd, SparseStart, FirstBad;
    var qs, n := r.queues, |cfg|;
    EndsAre(qs, cfg, n);
    assert AllEof(qs, cfg, n) == EndsFile(qs, cfg, n);
    var times := EndTimes(qs, cfg, n, EndsFile(qs, cfg, n));
    assert r.seekEnd in times;
    assert forall i :: 0 <= i < n && Counts(cfg[i]) && HasEnd(qs[i], EndsFile(qs, cfg, n)) ==> qs[i].seekEnd in times;
  }

  predicate HasEnd(q: Queue, eof: bool) {
    q.isEof == eof && q.seekEnd != NOPTS
  }

  predicate EndsAfter(q: Queue, start: real) {
    q.seekEnd != NOPTS && q.seekEnd > start
  }

  predicate EndsBy(q: Queue, start: real) {
    HasEnd(q, false) && q.seekEnd <= start
  }

  // The packets of a stream from its seek target on.
  function FromTarget(q: Queue, cfg: StreamConfig, pts: real): seq<Packet> {
    var t := QueueTarget(q, cfg, pts, false);
    if t.None? || t.value > |q.pkts| then [] else q.pkts[t.value..]
  }

  // What dump_cache() writes of one range: of each stream, the packets from the
  // target of a backward seek to the start on, until it ends.
  method DumpRange(r: Range, cfg: seq<StreamConfig>, start: real, end: real) returns (out: seq<Item>)
    requires |r.queues| == |cfg|
    ensures forall k :: 0 <= k < |out| ==> out[k].stream < |cfg|
    ensures r.seekStart == NOPTS || r.seekEnd <= start || (end != NOPTS && end <= r.seekStart) ==> out == []
    ensures r.seekStart != NOPTS && start < r.seekEnd && (end == NOPTS || r.seekStart < end) ==>
              var to := AdjustTarget(r, cfg, SeekPoint(start, false), 0);
              && (forall i :: 0 <= i < |cfg| ==> Of(out, i) == Wanted(FromTarget(r.queues[i], cfg[i], to.pts), end))
              && ((forall i :: 0 <= i < |cfg| ==> Timed(FromTarget(r.queues[i], cfg[i], to.pts))) ==> InOrder(out))
  {
    hide Wanted, Of, FromTarget, AdjustTarget;
    out := [];
    if !Overlaps(r, start, end) {
      return;
    }
    var to := AdjustTarget(r, cfg, SeekPoint(start, false), 0);
    var lists: seq<seq<Packet>> := [];
    for i := 0 to |cfg|
      invariant |lists| == i && forall k :: 0 <= k < i ==> lists[k] == FromTarget(r.queues[k], cfg[k], to.pts)
    {
      lists := lists + [FromTarget(r.queues[i], cfg[i], to.pts)];
    }
    out := MergeRange(lists, end);
  }

  // A stream is written from a keyframe on, which starts no later than a position
  // that is not before the start of its queue.
  lemma DumpBegins(q: Queue, cfg: StreamConfig, pts: real, pos: real)
    requires QueueOk(q, cfg) && SeekableQueue(q, cfg) && pos >= q.seekStart && pos >= pts
    ensures var s := FromTarget(q, cfg, pts);
            |s| > 0 && s[0].keyframe && RunMin(s, 0) <= pos - cfg.preroll
  {
    hide RunMin, QueueTarget, QueueOk, NonDecreasing;
    QueueSeekIsSound(q, cfg, pts, pos);
    var t := QueueTarget(q, cfg, pts, false).value;
    RunAfterDrop(q.pkts, t, t);
  }

  // Nothing is written of a stream that can be sought in if and only if already the
  // keyframe it would begin with is at or after the end.
  lemma NothingWrittenIff(q: Queue, cfg: StreamConfig, pts: real, pos: real, end: real)
    requires QueueOk(q, cfg) && SeekableQueue(q, cfg) && pos >= q.seekStart && pos >= pts
    ensures var s := FromTarget(q, cfg, pts);
            |s| > 0 && (Wanted(s, end) == [] <==> end != NOPTS && Time(s[0]) != NOPTS && Time(s[0]) >= end)
  {
    hide FromTarget, QueueOk, SeekableQueue;
    DumpBegins(q, cfg, pts, pos);
  }
}
