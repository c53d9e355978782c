// Packets, and the keyframe runs a packet list is made of.
//
// A keyframe run is a keyframe packet and the packets after it up to, and not
// including, the next keyframe. Seeking, indexing and pruning work on runs.

module Packets {
  import opened Timestamps

  // `size` is demux_packet_estimate_total_size() of the packet.
  datatype Packet = Packet(
    pts: real, dts: real, pos: int, keyframe: bool, len: nat, size: nat,
    segmented: bool, start: real, end: real)

  // The timestamp a packet contributes to its run; segment bounds hide it.
  function TimeOf(p: Packet): real {
    var ts := PtsOrDef(p.pts, p.dts);
    if p.segmented && ((p.start != NOPTS && ts < p.start) || (p.end != NOPTS && ts > p.end)) then NOPTS
    else ts
  }

  // Index of the first keyframe at or after i, or |s|.
  function NextKeyframe(s: seq<Packet>, i: nat): (k: nat)
    requires i <= |s|
    ensures i <= k <= |s|
    ensures k < |s| ==> s[k].keyframe
    ensures forall j :: i <= j < k ==> !s[j].keyframe
    decreases |s| - i
  {
    if i == |s| || s[i].keyframe then i else NextKeyframe(s, i + 1)
  }

  // Index of the keyframe that ends the run starting at i, or |s|.
  function RunEnd(s: seq<Packet>, i: nat): (k: nat)
    requires i < |s|
    ensures i < k <= |s|
  {
    NextKeyframe(s, i + 1)
  }

  // Least timestamp of s[i..j], ignoring packets without one.
  function MinTime(s: seq<Packet>, i: nat, j: nat): real
    requires i <= j <= |s|
    decreases j - i
  {
    if i == j then NOPTS else PtsMin(MinTime(s, i, j - 1), TimeOf(s[j - 1]))
  }

  function MaxTime(s: seq<Packet>, i: nat, j: nat): real
    requires i <= j <= |s|
    decreases j - i
  {
    if i == j then NOPTS else PtsMax(MaxTime(s, i, j - 1), TimeOf(s[j - 1]))
  }

  // Start time of the run at i.
  function RunMin(s: seq<Packet>, i: nat): real
    requires i < |s|
  {
    MinTime(s, i, RunEnd(s, i))
  }

  function RunMax(s: seq<Packet>, i: nat): real
    requires i < |s|
  {
    MaxTime(s, i, RunEnd(s, i))
  }

  // MinTime is what its name says.
  lemma {:induction false} MinTimeIsLeast(s: seq<Packet>, i: nat, j: nat)
    requires i <= j <= |s|
    ensures forall k :: i <= k < j && TimeOf(s[k]) != NOPTS ==> MinTime(s, i, j) <= TimeOf(s[k])
    ensures MinTime(s, i, j) != NOPTS ==> exists k :: i <= k < j && TimeOf(s[k]) == MinTime(s, i, j)
    ensures MinTime(s, i, j) == NOPTS <==> forall k :: i <= k < j ==> TimeOf(s[k]) == NOPTS
    decreases j - i
  {
    if i < j {
      MinTimeIsLeast(s, i, j - 1);
    }
  }

  lemma {:induction false} MaxTimeIsGreatest(s: seq<Packet>, i: nat, j: nat)
    requires i <= j <= |s|
    ensures forall k :: i <= k < j && TimeOf(s[k]) != NOPTS ==> TimeOf(s[k]) <= MaxTime(s, i, j)
    ensures MaxTime(s, i, j) != NOPTS ==> exists k :: i <= k < j && TimeOf(s[k]) == MaxTime(s, i, j)
    ensures MaxTime(s, i, j) == NOPTS <==> forall k :: i <= k < j ==> TimeOf(s[k]) == NOPTS
    decreases j - i
  {
    if i < j {
      MaxTimeIsGreatest(s, i, j - 1);
    }
  }

  // A packet is shown at its pts, or else its dts, if that is in its segment.
  predicate IsShownAt(p: Packet, t: real) {
    && t != NOPTS && t == (if p.pts != NOPTS then p.pts else p.dts)
    && (p.segmented && p.start != NOPTS ==> p.start <= t)
    && (p.segmented && p.end != NOPTS ==> t <= p.end)
  }

  lemma TimeIsShown(p: Packet)
    ensures TimeOf(p) != NOPTS ==> IsShownAt(p, TimeOf(p))
    ensures forall t :: IsShownAt(p, t) ==> t == TimeOf(p)
  {
  }

  // Between its bounds lies everything that a run shows, and something is shown at each
  // of them.
  lemma RunShows(s: seq<Packet>, i: nat, j: nat)
    requires i <= j <= |s|
    ensures forall k, t :: i <= k < j && IsShownAt(s[k], t) ==> MinTime(s, i, j) <= t <= MaxTime(s, i, j)
    ensures var a, b := MinTime(s, i, j), MaxTime(s, i, j);
            if forall k, t :: i <= k < j ==> !IsShownAt(s[k], t) then a == b == NOPTS
            else (exists k :: i <= k < j && IsShownAt(s[k], a)) && exists k :: i <= k < j && IsShownAt(s[k], b)
  {
    MinTimeIsLeast(s, i, j);
    MaxTimeIsGreatest(s, i, j);
    forall k | i <= k < j
      ensures TimeOf(s[k]) != NOPTS ==> IsShownAt(s[k], TimeOf(s[k]))
      ensures forall t :: IsShownAt(s[k], t) ==> t == TimeOf(s[k])
    {
      TimeIsShown(s[k]);
    }
    hide TimeOf, IsShownAt;
  }

  // --- How runs react to changes of the list around them ---

  lemma NextKeyframeUnique(s: seq<Packet>, i: nat, k: nat)
    requires i <= k <= |s|
    requires k < |s| ==> s[k].keyframe
    requires forall j :: i <= j < k ==> !s[j].keyframe
    ensures NextKeyframe(s, i) == k
  {
  }

  lemma {:induction false} MinTimeDependsOnSlice(s: seq<Packet>, i: nat, j: nat, t: seq<Packet>, i': nat)
    requires i <= j <= |s| && i' + (j - i) <= |t|
    requires s[i..j] == t[i'..i' + (j - i)]
    ensures MinTime(s, i, j) == MinTime(t, i', i' + (j - i))
    decreases j - i
  {
    if i < j {
      assert s[i..j][..j - 1 - i] == s[i..j - 1] && t[i'..i' + (j - i)][..j - 1 - i] == t[i'..i' + (j - 1 - i)];
      assert s[i..j][j - 1 - i] == s[j - 1] && t[i'..i' + (j - i)][j - 1 - i] == t[i' + (j - 1 - i)];
      MinTimeDependsOnSlice(s, i, j - 1, t, i');
    }
  }

  // Dropping packets before a run does not affect the run.
  lemma RunAfterDrop(s: seq<Packet>, k: nat, i: nat)
    requires k <= i < |s|
    ensures RunEnd(s[k..], i - k) == RunEnd(s, i) - k
    ensures RunMin(s[k..], i - k) == RunMin(s, i)
  {
    var e := RunEnd(s, i);
    NextKeyframeUnique(s[k..], i - k + 1, e - k);
    assert s[i..e] == s[k..][i - k..e - k];
    MinTimeDependsOnSlice(s, i, e, s[k..], i - k);
  }

  // Packets appended to the list can only extend the last run, which can give
  // it an earlier start time but never a later one, nor remove it.
  lemma RunAfterAppend(s: seq<Packet>, t: seq<Packet>, i: nat)
    requires i < |s|
    ensures RunEnd(s, i) < |s| ==> RunEnd(s + t, i) == RunEnd(s, i) && RunMin(s + t, i) == RunMin(s, i)
    ensures RunMin(s, i) != NOPTS ==> RunMin(s + t, i) != NOPTS && RunMin(s + t, i) <= RunMin(s, i)
  {
    var e, e' := RunEnd(s, i), RunEnd(s + t, i);
    if e < |s| {
      NextKeyframeUnique(s + t, i + 1, e);
    }
    forall j | i < j < e
      ensures !(s + t)[j].keyframe
    {
      assert (s + t)[j] == s[j];
    }
    assert e <= e';
    assert s[i..e] == (s + t)[i..e];
    MinTimeDependsOnSlice(s, i, e, s + t, i);
    MinTimeIsLeast(s + t, i, e);
    MinTimeIsLeast(s + t, i, e');
  }

  // A keyframe of the second list keeps its run when the lists are joined.
  lemma RunInSecond(s: seq<Packet>, t: seq<Packet>, i: nat)
    requires i < |t|
    ensures RunEnd(s + t, |s| + i) == |s| + RunEnd(t, i)
    ensures RunMin(s + t, |s| + i) == RunMin(t, i)
  {
    assert (s + t)[|s|..] == t;
    RunAfterDrop(s + t, |s|, |s| + i);
  }
}
