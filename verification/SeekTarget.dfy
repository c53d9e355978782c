// Finding the packet to resume reading from when seeking inside the cache.
//
// The index only says where the scan starts. It skips keyframes, and its
// entries may be out of date: a run can get an earlier start time after it was
// indexed. The question is when the shortcut changes the outcome.

module SeekTarget {
  import opened Timestamps
  import opened Wrappers
  import opened Packets
  import opened RingIndex

  // A keyframe whose run has a start time. Others are never a seek target.
  predicate Candidate(s: seq<Packet>, k: nat) {
    k < |s| && s[k].keyframe && RunMin(s, k) != NOPTS
  }

  // The loop of find_seek_target(). Forward, the first run that is late enough is
  // the target. Backward, runs are taken as long as they are early enough, and
  // the first one in any case.
  function Scan(s: seq<Packet>, i: nat, pts: real, forward: bool, target: Option<nat>): Option<nat>
    requires i <= |s|
    decreases |s| - i
  {
    if i == |s| then target
    else if !s[i].keyframe then Scan(s, i + 1, pts, forward, target)
    else
      var t := RunMin(s, i);
      var next := RunEnd(s, i);
      if t == NOPTS then Scan(s, next, pts, forward, target)
      else if forward then
        if target.Some? then target
        else if t < pts then Scan(s, next, pts, forward, target)
        else Scan(s, next, pts, forward, Some(i))
      else
        if target.Some? && t > pts then target
        else Scan(s, next, pts, forward, Some(i))
  }

  // Where the scan looks next.
  function AfterRun(s: seq<Packet>, i: nat): (k: nat)
    requires i < |s|
    ensures i < k <= |s|
  {
    if s[i].keyframe then RunEnd(s, i) else i + 1
  }

  lemma AfterRunNotPast(s: seq<Packet>, i: nat, k: nat)
    requires i < k < |s| && s[k].keyframe
    ensures AfterRun(s, i) <= k
  {
    var e := AfterRun(s, i);
  }

  // Index entries refer to packets by number; `base` is the number of s[0].
  ghost predicate EntryOk(s: seq<Packet>, base: nat, e: IndexEntry<nat>) {
    && base <= e.pkt && Candidate(s, e.pkt - base)
    && e.pts != NOPTS && RunMin(s, e.pkt - base) <= e.pts
  }

  ghost predicate IndexOk(s: seq<Packet>, base: nat, es: seq<IndexEntry<nat>>) {
    && Spaced(es)
    && (forall i :: 0 <= i < |es| ==> EntryOk(s, base, es[i]))
    && (forall i, j :: 0 <= i < j < |es| ==> es[i].pkt < es[j].pkt)
  }

  function ScanStart(s: seq<Packet>, base: nat, es: seq<IndexEntry<nat>>, pts: real): nat {
    var k := LastAtMost(es, pts);
    if k < 0 || es[k].pkt < base || es[k].pkt - base > |s| then 0 else es[k].pkt - base
  }

  // find_seek_target(): `preroll` is the seek_preroll of the stream.
  function FindSeekTarget(s: seq<Packet>, base: nat, es: seq<IndexEntry<nat>>, preroll: real,
                          pts: real, forward: bool): Option<nat>
  {
    Scan(s, ScanStart(s, base, es, pts - preroll), pts - preroll, forward, None)
  }

  // --- What the scan finds ---

  ghost predicate NoCandidate(s: seq<Packet>, i: nat, j: nat) {
    forall k :: i <= k < j ==> !Candidate(s, k)
  }

  // A forward scan finds the first candidate at or after pts.
  lemma {:induction false} ForwardScanFinds(s: seq<Packet>, i: nat, pts: real)
    requires i <= |s|
    ensures var r := Scan(s, i, pts, true, None);
            if r.None? then forall k :: i <= k && Candidate(s, k) ==> RunMin(s, k) < pts
            else
              && i <= r.value && Candidate(s, r.value) && RunMin(s, r.value) >= pts
              && forall k :: i <= k < r.value && Candidate(s, k) ==> RunMin(s, k) < pts
    decreases |s| - i
  {
    if i < |s| {
      if !s[i].keyframe {
        ForwardScanFinds(s, i + 1, pts);
      } else {
        var t, next := RunMin(s, i), RunEnd(s, i);
        if t != NOPTS && t >= pts {
          ForwardScanKeeps(s, next, pts, i);
        } else {
          ForwardScanFinds(s, next, pts);
        }
      }
    }
  }

  lemma {:induction false} ForwardScanKeeps(s: seq<Packet>, i: nat, pts: real, target: nat)
    requires i <= |s|
    ensures Scan(s, i, pts, true, Some(target)) == Some(target)
    decreases |s| - i
  {
    if i < |s| {
      ForwardScanKeeps(s, AfterRun(s, i), pts, target);
    }
  }

  // A backward scan takes candidates as long as they are not past pts, and in
  // any case the first one.
  lemma {:induction false} BackwardScanFinds(s: seq<Packet>, i: nat, pts: real)
    requires i <= |s|
    ensures var r := Scan(s, i, pts, false, None);
            if r.None? then NoCandidate(s, i, |s|)
            else
              && i <= r.value && Candidate(s, r.value)
              && (RunMin(s, r.value) <= pts || NoCandidate(s, i, r.value))
    decreases |s| - i
  {
    if i < |s| {
      if !s[i].keyframe {
        BackwardScanFinds(s, i + 1, pts);
      } else if RunMin(s, i) == NOPTS {
        BackwardScanFinds(s, RunEnd(s, i), pts);
      } else {
        BackwardScanImproves(s, RunEnd(s, i), pts, i);
      }
    }
  }

  lemma {:induction false} BackwardScanImproves(s: seq<Packet>, i: nat, pts: real, target: nat)
    requires target < i <= |s|
    ensures var r := Scan(s, i, pts, false, Some(target));
            && r.Some?
            && (r == Some(target) || (i <= r.value && Candidate(s, r.value) && RunMin(s, r.value) <= pts))
    decreases |s| - i
  {
    if i < |s| {
      if !s[i].keyframe {
        BackwardScanImproves(s, i + 1, pts, target);
      } else if RunMin(s, i) == NOPTS {
        BackwardScanImproves(s, RunEnd(s, i), pts, target);
      } else if RunMin(s, i) <= pts {
        BackwardScanImproves(s, RunEnd(s, i), pts, i);
      }
    }
  }

  ghost predicate NonDecreasing(s: seq<Packet>) {
    forall j, k :: j < k && Candidate(s, j) && Candidate(s, k) ==> RunMin(s, j) <= RunMin(s, k)
  }

  ghost predicate StrictlyIncreasing(s: seq<Packet>) {
    forall j, k :: j < k && Candidate(s, j) && Candidate(s, k) ==> RunMin(s, j) < RunMin(s, k)
  }

  // If any candidate at or after i starts at or before pts, so does the result,
  // provided the first one does.
  lemma BackwardScanIsBefore(s: seq<Packet>, i: nat, pts: real, k: nat)
    requires i <= k < |s| && NonDecreasing(s)
    requires Candidate(s, k) && RunMin(s, k) <= pts
    ensures var r := Scan(s, i, pts, false, None);
            r.Some? && Candidate(s, r.value) && RunMin(s, r.value) <= pts
  {
    BackwardScanFinds(s, i, pts);
  }

  // --- When starting at an index entry makes no difference ---

  // Backward scan reaches candidate k and takes it.
  lemma {:induction false} BackwardReaches(s: seq<Packet>, i: nat, k: nat, pts: real, target: Option<nat>)
    requires i <= k && Candidate(s, k) && RunMin(s, k) <= pts
    requires forall j :: i <= j < k && Candidate(s, j) ==> RunMin(s, j) <= pts || (target.None? && NoCandidate(s, i, j))
    ensures Scan(s, i, pts, false, target) == Scan(s, RunEnd(s, k), pts, false, Some(k))
    decreases k - i
  {
    if i < k {
      var next := AfterRun(s, i);
      AfterRunNotPast(s, i, k);
      var t := if Candidate(s, i) then Some(i) else target;
      forall j | next <= j < k && Candidate(s, j)
        ensures RunMin(s, j) <= pts || (t.None? && NoCandidate(s, next, j))
      {
      }
      BackwardReaches(s, next, k, pts, t);
    }
  }

  // Forward scan skips everything before candidate k.
  lemma {:induction false} ForwardReaches(s: seq<Packet>, i: nat, k: nat, pts: real)
    requires i <= k && Candidate(s, k)
    requires forall j :: i <= j < k && Candidate(s, j) ==> RunMin(s, j) < pts
    ensures Scan(s, i, pts, true, None) == Scan(s, k, pts, true, None)
    decreases k - i
  {
    if i < k {
      var next := AfterRun(s, i);
      AfterRunNotPast(s, i, k);
      ForwardReaches(s, next, k, pts);
    }
  }

  // Exactly when a forward scan may start at a candidate k that is at or before
  // pts: if nothing before k would have stopped it.
  lemma ForwardShortcut(s: seq<Packet>, k: nat, pts: real)
    requires Candidate(s, k) && RunMin(s, k) <= pts
    ensures Scan(s, 0, pts, true, None) == Scan(s, k, pts, true, None)
            <==> forall j :: 0 <= j < k && Candidate(s, j) ==> RunMin(s, j) < pts
  {
    ForwardScanFinds(s, 0, pts);
    ForwardScanFinds(s, k, pts);
    if forall j :: 0 <= j < k && Candidate(s, j) ==> RunMin(s, j) < pts {
      ForwardReaches(s, 0, k, pts);
    }
  }

  // Exactly when a backward scan may: if every candidate before k but the first
  // is at or before pts.
  lemma BackwardShortcut(s: seq<Packet>, k: nat, pts: real)
    requires Candidate(s, k) && RunMin(s, k) <= pts
    ensures Scan(s, 0, pts, false, None) == Scan(s, k, pts, false, None)
            <==> forall i, j :: 0 <= i < j < k && Candidate(s, i) && Candidate(s, j) ==> RunMin(s, j) <= pts
  {
    BackwardReaches(s, k, k, pts, None);
    BackwardScanImproves(s, RunEnd(s, k), pts, k);
    if forall i, j :: 0 <= i < j < k && Candidate(s, i) && Candidate(s, j) ==> RunMin(s, j) <= pts {
      BackwardReaches(s, 0, k, pts, None);
    } else {
      var i, j :| 0 <= i < j < k && Candidate(s, i) && Candidate(s, j) && RunMin(s, j) > pts;
      BackwardStopsBefore(s, 0, i, j, pts, None);
    }
  }

  // A candidate past pts that is not the first one stops a backward scan.
  lemma {:induction false} BackwardStopsBefore(s: seq<Packet>, n: nat, i: nat, j: nat, pts: real, target: Option<nat>)
    requires n <= j && Candidate(s, i) && Candidate(s, j) && RunMin(s, j) > pts
    requires n <= i < j || target.Some?
    requires target.Some? ==> target.value < j
    ensures var r := Scan(s, n, pts, false, target); r.Some? && r.value < j
    decreases j - n
  {
    if n < j {
      var next := AfterRun(s, n);
      AfterRunNotPast(s, n, j);
      if !(Candidate(s, n) && target.Some? && RunMin(s, n) > pts) {
        BackwardStopsBefore(s, next, i, j, pts, if Candidate(s, n) then Some(n) else target);
      }
    }
  }

  // The index refines the linear scan: with strictly increasing run start times
  // the indexed search returns what a scan of the whole queue returns, whatever
  // the pts, the direction and the selection of indexed keyframes.
  lemma IndexRefinesScan(s: seq<Packet>, base: nat, es: seq<IndexEntry<nat>>, preroll: real, pts: real, forward: bool)
    requires IndexOk(s, base, es) && StrictlyIncreasing(s)
    ensures FindSeekTarget(s, base, es, preroll, pts, forward) == Scan(s, 0, pts - preroll, forward, None)
  {
    var p := pts - preroll;
    var e := LastAtMost(es, p);
    if e >= 0 {
      var k := es[e].pkt - base;
      assert EntryOk(s, base, es[e]);
      if forward {
        ForwardShortcut(s, k, p);
      } else {
        BackwardShortcut(s, k, p);
      }
    }
  }

  // For backward seeks, equal start times do no harm.
  lemma IndexRefinesBackwardScan(s: seq<Packet>, base: nat, es: seq<IndexEntry<nat>>, preroll: real, pts: real)
    requires IndexOk(s, base, es) && NonDecreasing(s)
    ensures FindSeekTarget(s, base, es, preroll, pts, false) == Scan(s, 0, pts - preroll, false, None)
  {
    var p := pts - preroll;
    var e := LastAtMost(es, p);
    if e >= 0 {
      assert EntryOk(s, base, es[e]);
      BackwardShortcut(s, es[e].pkt - base, p);
    }
  }

  // Runs that start at 10.9, 10.5 and 11.6. The first one was too close to a run
  // that was indexed before it, and is gone; so the second one is the first in
  // the index, though it starts earlier. A forward seek to 10.6 goes to the third
  // one, past the first.
  lemma ForwardSeekMissesRun()
    ensures var p := Packet(10.9, 10.9, 1, true, 1, 1, false, NOPTS, NOPTS);
            var s := [p, p.(pts := 10.5, dts := 10.5, pos := 2), p.(pts := 11.6, dts := 11.6, pos := 3)];
            var es := [IndexEntry(10.5, 8)];
            && IndexOk(s, 7, es) && RunMin(s, 0) == 10.9
            && FindSeekTarget(s, 7, es, 0.0, 10.6, true) == Some(2)
            && Scan(s, 0, 10.6, true, None) == Some(0)
  {
    var p := Packet(10.9, 10.9, 1, true, 1, 1, false, NOPTS, NOPTS);
    var s := [p, p.(pts := 10.5, dts := 10.5, pos := 2), p.(pts := 11.6, dts := 11.6, pos := 3)];
    var es := [IndexEntry(10.5, 8)];
    assert RunEnd(s, 0) == 1 && RunEnd(s, 1) == 2 && RunEnd(s, 2) == 3;
    assert MinTime(s, 0, 0) == NOPTS && MinTime(s, 1, 1) == NOPTS && MinTime(s, 2, 2) == NOPTS;
    assert RunMin(s, 0) == 10.9 && RunMin(s, 1) == 10.5 && RunMin(s, 2) == 11.6;
    hide RunMin;
    assert EntryOk(s, 7, es[0]);
    assert LastAtMost(es, 10.6) == 0;
    ForwardScanFinds(s, 0, 10.6);
    ForwardScanFinds(s, 1, 10.6);
    assert Candidate(s, 0) && Candidate(s, 1) && Candidate(s, 2);
  }
}
