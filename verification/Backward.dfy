// Demuxing backwards. Demuxers only go forwards, so the stream is delivered in
// batches of keyframe runs, each batch forwards, the batches in reverse order.
// Each batch ends where the previous one began: at the restart position.

module Backward {
  import opened Timestamps
  import opened Wrappers
  import opened Packets
  import opened RingIndex
  import opened SeekTarget
  import opened CacheRuns

  // The state of a stream that is only used for backward demuxing.
  datatype Back = Back(
    restarting: bool,
    restartDts: real, restartPos: int,     // first packet rendered last time
    restartEof: bool,                      // the restart position is EOF; overrides dts and pos
    restartNext: bool,                     // it is before the next keyframe; overrides the above
    seekPos: real,
    rangeStarted: bool, rangeCount: int, rangePreroll: int)

  // What it is looked for in: the packets of the queue and the position of the
  // reader in it, which is |pkts| if there is nothing to read.
  datatype View = View(
    pkts: seq<Packet>, first: nat, eof: bool, isBof: bool, seekStart: real,
    correctDts: bool, correctPos: bool)

  datatype Config = Config(batch: nat, preroll: nat)

  // --- Counting keyframes ---

  function KfCount(s: seq<Packet>, i: nat, j: nat): (n: nat)
    requires i <= j <= |s|
    ensures n <= j - i
    decreases j - i
  {
    if i == j then 0 else (if s[i].keyframe then 1 else 0) + KfCount(s, i + 1, j)
  }

  // The k-th keyframe at or after i, before j.
  function KfFrom(s: seq<Packet>, i: nat, j: nat, k: nat): (t: nat)
    requires i <= j <= |s| && k < KfCount(s, i, j)
    ensures i <= t < j && s[t].keyframe
    decreases j - i
  {
    if s[i].keyframe && k == 0 then i
    else KfFrom(s, i + 1, j, if s[i].keyframe then k - 1 else k)
  }

  lemma {:induction false} KfCountSplit(s: seq<Packet>, i: nat, m: nat, j: nat)
    requires i <= m <= j <= |s|
    ensures KfCount(s, i, j) == KfCount(s, i, m) + KfCount(s, m, j)
    decreases m - i
  {
    if i < m {
      KfCountSplit(s, i + 1, m, j);
    }
  }

  // Exactly k keyframes come before the k-th one.
  lemma {:induction false} KfFromCounts(s: seq<Packet>, i: nat, j: nat, k: nat)
    requires i <= j <= |s| && k < KfCount(s, i, j)
    ensures KfCount(s, i, KfFrom(s, i, j, k)) == k
    ensures KfCount(s, KfFrom(s, i, j, k), j) == KfCount(s, i, j) - k
    decreases j - i
  {
    var t := KfFrom(s, i, j, k);
    if !(s[i].keyframe && k == 0) {
      KfFromCounts(s, i + 1, j, if s[i].keyframe then k - 1 else k);
    }
    KfCountSplit(s, i, t, j);
  }

  lemma {:induction false} KfCountShift(s: seq<Packet>, lo: nat, hi: nat, i: nat, j: nat)
    requires lo <= hi <= |s| && i <= j <= hi - lo
    ensures KfCount(s[lo..hi], i, j) == KfCount(s, lo + i, lo + j)
    decreases j - i
  {
    if i < j {
      KfCountShift(s, lo, hi, i + 1, j);
    }
  }

  // --- Looking for the restart position ---

  datatype Outcome =
    | Wait                                 // more packets are needed
    | Uncooperative                        // the packet is not where it should be
    | Earlier                              // the reader has to go back further
    | Bof                                  // all was delivered
    | Restart(target: nat, restart: nat, total: nat, preroll: nat)

  predicate Matches(v: View, p: Packet, b: Back) {
    (v.correctDts && p.dts == b.restartDts) || (v.correctPos && p.pos == b.restartPos)
  }

  predicate Before(v: View, p: Packet, b: Back) {
    (v.correctDts && p.dts < b.restartDts) || (v.correctPos && p.pos < b.restartPos)
  }

  predicate After(v: View, p: Packet, b: Back) {
    (v.correctDts && p.dts > b.restartDts) || (v.correctPos && p.pos > b.restartPos)
  }

  function FindMatch(v: View, b: Back, i: nat): (r: nat)
    requires i <= |v.pkts|
    ensures i <= r <= |v.pkts|
    ensures r < |v.pkts| ==> Matches(v, v.pkts[r], b)
    ensures forall j :: i <= j < r ==> !Matches(v, v.pkts[j], b)
    decreases |v.pkts| - i
  {
    if i == |v.pkts| || Matches(v, v.pkts[i], b) then i else FindMatch(v, b, i + 1)
  }

  // The initial state is to restart at the keyframe after the current one, or
  // at EOF if there is none.
  function Initialize(v: View, b: Back): Back
    requires v.first <= |v.pkts|
  {
    if !b.restartNext then b
    else
      var k := if v.first < |v.pkts| then NextKeyframe(v.pkts, v.first + 1) else |v.pkts|;
      if k < |v.pkts| then
        b.(restartDts := v.pkts[k].dts, restartPos := v.pkts[k].pos, restartEof := false, restartNext := false)
      else if v.eof then b.(restartEof := true, restartNext := false)
      else b
  }

  predicate IsBof(v: View, b: Back) {
    v.isBof && (v.first == 0 || b.seekPos < v.seekStart)
  }

  function Total(v: View, b: Back, cfg: Config, numKf: nat): nat {
    var total := Batch(cfg) + cfg.preroll;
    if numKf < total && IsBof(v, b) then numKf else total
  }

  function Batch(cfg: Config): nat {
    if cfg.batch > 1 then cfg.batch else 1
  }

  // How many of the keyframes are only there for the decoder to start on.
  function Preroll(cfg: Config, total: nat): nat {
    if total > Batch(cfg) then total - Batch(cfg) else 0
  }

  // The second half of find_backward_restart_pos(): how far to go back from
  // position r.
  function GoBack(v: View, b: Back, cfg: Config, r: nat): Outcome
    requires v.first <= r <= |v.pkts|
  {
    var numKf := KfCount(v.pkts, v.first, r);
    var total := Total(v, b, cfg, numKf);
    if total == 0 || total > numKf then (if IsBof(v, b) then Bof else Earlier)
    else
      var target := KfFrom(v.pkts, v.first, r, numKf - total);
      KfFromCounts(v.pkts, v.first, r, numKf - total);
      Restart(target, KfFrom(v.pkts, target, r, Preroll(cfg, total)), total, Preroll(cfg, total))
  }

  lemma GoBackInRange(v: View, b: Back, cfg: Config, r: nat)
    requires v.first <= r <= |v.pkts|
    ensures var o := GoBack(v, b, cfg, r);
            && (o.Restart? ==> o.target < |v.pkts| && o.restart < |v.pkts|)
            && (o.Restart? || o.Bof? || o.Earlier?)
  {
    hide KfCount;
    var numKf := KfCount(v.pkts, v.first, r);
    var total := Total(v, b, cfg, numKf);
    if total > 0 && total <= numKf {
      KfFromCounts(v.pkts, v.first, r, numKf - total);
    }
  }

  // find_backward_restart_pos(), for an initialized state.
  function Find(v: View, b: Back, cfg: Config): Outcome
    requires v.first <= |v.pkts|
  {
    if b.restartNext then Wait
    else if b.restartEof then (if v.eof then GoBack(v, b, cfg, |v.pkts|) else Wait)
    else if v.first == |v.pkts| then (if v.eof then GoBack(v, b, cfg, |v.pkts|) else Wait)
    else if Before(v, v.pkts[|v.pkts| - 1], b) then Wait
    else if After(v, v.pkts[v.first], b) then Earlier
    else
      var r := FindMatch(v, b, v.first);
      if r == |v.pkts| then Uncooperative else GoBack(v, b, cfg, r)
  }

  // The state after a restart position was found.
  function Restarted(v: View, b: Back, o: Outcome): Back
    requires v.first <= |v.pkts|
  {
    match o
    case Restart(target, restart, total, preroll) =>
      if target < |v.pkts| && restart < |v.pkts| then
        var pts := RunMin(v.pkts, target);
        b.(seekPos := if pts != NOPTS then pts else b.seekPos,
           restartDts := v.pkts[restart].dts, restartPos := v.pkts[restart].pos,
           restarting := false, rangeStarted := false, rangeCount := total, rangePreroll := preroll)
      else b
    case Bof => b.(restarting := false, rangeStarted := false, rangeCount := -1, rangePreroll := 0)
    case _ => b
  }

  // dequeue_packet(), when the batch was delivered
  function BeginStep(b: Back): Back {
    b.(restarting := true, restartEof := false, restartNext := false)
  }

  // The index of the queue, its base, and the seek_preroll of the stream.
  datatype SeekAid = SeekAid(index: seq<IndexEntry<nat>>, base: nat, preroll: real)

  // What resume_earlier leads to: the reader moves back to an earlier packet of the queue,
  // if there is one, or else a low-level seek is needed.
  datatype Resumed = Moved(first: nat, b: Back) | NeedsSeek(b: Back) | Stays(b: Back)

  function ResumeEarlier(v: View, b: Back, aid: SeekAid, stepSize: real): Resumed {
    var target := FindSeekTarget(v.pkts, aid.base, aid.index, aid.preroll, b.seekPos - 0.001, false);
    if b.seekPos == NOPTS then Stays(b)
    else if target.Some? && target.value < |v.pkts| && target.value != v.first
    then Moved(target.value, b.(seekPos := PtsMin(b.seekPos, RunMin(v.pkts, target.value))))
    else NeedsSeek(b.(seekPos := b.seekPos - stepSize))
  }

  // Resuming moves the reader, but leaves the restart position alone.
  lemma ResumeKeepsRestart(v: View, b: Back, aid: SeekAid, stepSize: real)
    ensures ResumeEarlier(v, b, aid, stepSize).b == b.(seekPos := ResumeEarlier(v, b, aid, stepSize).b.seekPos)
  {
    hide FindSeekTarget, RunMin;
  }

  // What is asked for gets ever earlier: a seek goes back by exactly one step, and
  // moving the reader does not undo that.
  lemma ResumeGoesEarlier(v: View, b: Back, aid: SeekAid, stepSize: real)
    ensures var r := ResumeEarlier(v, b, aid, stepSize);
            && (r.Stays? <==> b.seekPos == NOPTS) && (r.Stays? ==> r.b == b)
            && (r.NeedsSeek? ==> r.b.seekPos == b.seekPos - stepSize)
            && (r.Moved? ==> r.b.seekPos <= b.seekPos && r.first < |v.pkts| && r.first != v.first)
  {
    hide FindSeekTarget, RunMin;
  }

  // The reader is moved to an earlier run, and the seek position to where that
  // starts, if the reader is on a run that starts behind the seek position. That is
  // not done if there is none.
  lemma MovesToEarlierRun(v: View, b: Back, aid: SeekAid, stepSize: real)
    requires IndexOk(v.pkts, aid.base, aid.index) && NonDecreasing(v.pkts) && b.seekPos != NOPTS
    requires Candidate(v.pkts, v.first) && RunMin(v.pkts, v.first) > b.seekPos - 0.001 - aid.preroll
    ensures var r := ResumeEarlier(v, b, aid, stepSize);
            if NoCandidate(v.pkts, 0, v.first) then r.NeedsSeek?
            else r.Moved? && r.first < v.first && Candidate(v.pkts, r.first)
                 && r.b.seekPos == Min(b.seekPos, RunMin(v.pkts, r.first))
                 && (RunMin(v.pkts, r.first) <= b.seekPos - 0.001 - aid.preroll || NoCandidate(v.pkts, 0, r.first))
  {
    hide RunMin, Scan, FindSeekTarget, NonDecreasing;
    var pts := b.seekPos - 0.001;
    IndexRefinesBackwardScan(v.pkts, aid.base, aid.index, aid.preroll, pts);
    BackwardScanFinds(v.pkts, 0, pts - aid.preroll);
    var t := FindSeekTarget(v.pkts, aid.base, aid.index, aid.preroll, pts, false);
    assert t.Some? && Candidate(v.pkts, t.value);
    if t.value > v.first {
      StartsLater(v.pkts, v.first, t.value);
    }
  }

  lemma StartsLater(s: seq<Packet>, i: nat, j: nat)
    requires NonDecreasing(s) && i < j && Candidate(s, i) && Candidate(s, j)
    ensures RunMin(s, i) <= RunMin(s, j)
  {
  }

  // --- One step back ---

  // The restart position is at index r of stream w.
  ghost predicate RestartsAt(b: Back, w: seq<Packet>, r: nat) {
    && !b.restartNext && r <= |w|
    && if b.restartEof then r == |w|
       else r < |w| && b.restartDts == w[r].dts && b.restartPos == w[r].pos
  }

  // The queue is the window of w from lo on; the reader is somewhere in it. What it
  // takes to increase does in the whole stream. If the queue begins the file, no
  // keyframe comes before it.
  ghost predicate Shows(v: View, w: seq<Packet>, lo: nat) {
    && v.first <= |v.pkts| && lo + |v.pkts| <= |w| && v.pkts == w[lo..lo + |v.pkts|]
    && (v.correctDts || v.correctPos)
    && (v.pkts != [] ==> (v.correctDts ==> ByDts(w)) && (v.correctPos ==> ByPos(w)))
    && (v.isBof ==> NextKeyframe(w, 0) >= lo)
    && (v.eof ==> lo + |v.pkts| == |w|)
  }

  // The restart position is only found at its place in the stream.
  lemma MatchIsPosition(v: View, b: Back, w: seq<Packet>, lo: nat, r: nat, i: nat)
    requires Ordered(w) && Shows(v, w, lo) && RestartsAt(b, w, r) && !b.restartEof
    requires i < |v.pkts|
    ensures Matches(v, v.pkts[i], b) <==> lo + i == r
    ensures Before(v, v.pkts[i], b) <==> lo + i < r
    ensures After(v, v.pkts[i], b) <==> lo + i > r
  {
    assert v.pkts[i] == w[lo + i];
  }

  function MinNat(a: nat, b: nat): nat {
    if a < b then a else b
  }

  // The reader may be taken to be at the beginning of the file by its seek
  // position only if no keyframe comes before it.
  predicate Honest(v: View, b: Back)
    requires v.first <= |v.pkts|
  {
    v.isBof && b.seekPos < v.seekStart ==> NextKeyframe(v.pkts, 0) >= v.first
  }

  // What makes a step render all it should: the reader is not taken to be at the
  // beginning, or there is nothing before it, or what is behind it is enough.
  predicate RendersAll(v: View, b: Back, cfg: Config, r: nat)
    requires v.first <= |v.pkts|
  {
    || !IsBof(v, b) || NextKeyframe(v.pkts, 0) >= v.first
    || (v.first <= r <= |v.pkts| && KfCount(v.pkts, v.first, r) >= Batch(cfg))
  }

  lemma WindowCount(v: View, w: seq<Packet>, lo: nat, i: nat, j: nat)
    requires Shows(v, w, lo) && i <= j <= |v.pkts|
    ensures KfCount(v.pkts, i, j) == KfCount(w, lo + i, lo + j)
  {
    KfCountShift(w, lo, lo + |v.pkts|, i, j);
  }

  // Where Find() goes back from.
  lemma FindGoesBack(v: View, b: Back, cfg: Config, w: seq<Packet>, lo: nat, r: nat)
    requires Ordered(w) && Shows(v, w, lo) && RestartsAt(b, w, r)
    ensures var o := Find(v, b, cfg);
            && !o.Uncooperative?
            && (o.Restart? || (o.Bof? && lo + v.first <= r) ==>
                  lo + v.first <= r <= lo + |v.pkts| && o == GoBack(v, b, cfg, r - lo))
            && (o.Bof? ==> IsBof(v, b))
  {
    hide KfCount, KfFrom;
    if !b.restartEof && v.first < |v.pkts| {
      MatchIsPosition(v, b, w, lo, r, v.first);
      MatchIsPosition(v, b, w, lo, r, |v.pkts| - 1);
      if lo + v.first <= r < lo + |v.pkts| {
        MatchIsPosition(v, b, w, lo, r, r - lo);
        var m := FindMatch(v, b, v.first);
        if m < |v.pkts| {
          MatchIsPosition(v, b, w, lo, r, m);
        }
      }
    } else if v.first == |v.pkts| {
      assert KfCount(v.pkts, v.first, |v.pkts|) == 0 by { NoKeyframes(v.pkts); }
    }
  }

  lemma NoKeyframes(s: seq<Packet>)
    ensures KfCount(s, |s|, |s|) == 0
  {
  }

  // One successful step: the reader is put on a keyframe so that the given
  // number of runs lies between it and the old restart position, of which the
  // last ones are to be rendered. These begin at the new restart position.
  lemma StepBack(v: View, b: Back, cfg: Config, w: seq<Packet>, lo: nat, r: nat)
    requires Ordered(w) && Shows(v, w, lo) && RestartsAt(b, w, r)
    requires Find(v, b, cfg).Restart?
    ensures var o := Find(v, b, cfg);
            var target, restart := lo + o.target, lo + o.restart;
            && lo + v.first <= target <= restart < r <= |w|
            && w[target].keyframe && w[restart].keyframe
            && KfCount(w, target, restart) == o.preroll && KfCount(w, target, r) == o.total
            && KfCount(w, restart, r) == MinNat(Batch(cfg), o.total)
            && o.total == MinNat(Batch(cfg) + cfg.preroll,
                                 if IsBof(v, b) then KfCount(w, lo + v.first, r) else Batch(cfg) + cfg.preroll)
            && RestartsAt(BeginStep(Restarted(v, b, o)), w, restart)
  {
    hide Find, KfCount, KfFrom, RunMin;
    FindGoesBack(v, b, cfg, w, lo, r);
    var o, e := GoBack(v, b, cfg, r - lo), r - lo;
    var numKf := KfCount(v.pkts, v.first, e);
    KfFromCounts(v.pkts, v.first, e, numKf - o.total);
    KfFromCounts(v.pkts, o.target, e, o.preroll);
    WindowCount(v, w, lo, v.first, e);
    WindowCount(v, w, lo, o.target, e);
    WindowCount(v, w, lo, o.target, o.restart);
    WindowCount(v, w, lo, o.restart, e);
    assert v.pkts[o.target] == w[lo + o.target] && v.pkts[o.restart] == w[lo + o.restart];
  }

  // Exactly when what is rendered is a full batch, or else all there is.
  lemma RestartRendersIff(v: View, b: Back, cfg: Config, w: seq<Packet>, lo: nat, r: nat)
    requires Ordered(w) && Shows(v, w, lo) && RestartsAt(b, w, r)
    requires Find(v, b, cfg).Restart?
    ensures var restart := lo + Find(v, b, cfg).restart;
            && restart < r <= |w| && lo <= r
            && (KfCount(w, restart, r) == MinNat(Batch(cfg), KfCount(w, 0, r)) <==> RendersAll(v, b, cfg, r - lo))
  {
    hide Find, KfCount, KfFrom, Ordered, RestartsAt;
    StepBack(v, b, cfg, w, lo, r);
    FindGoesBack(v, b, cfg, w, lo, r);
    WindowCount(v, w, lo, v.first, r - lo);
    KfCountSplit(w, 0, lo + v.first, r);
    KfCountSplit(w, lo + v.first, lo + Find(v, b, cfg).target, r);
    if v.isBof {
      WindowCount(v, w, lo, 0, v.first);
      CountIsZero(v.pkts, 0, v.first);
      KfCountSplit(w, 0, lo, lo + v.first);
      CountIsZero(w, 0, lo);
    }
  }

  // How much of the queue is before both the reader and position r.
  function BehindBoth(v: View, lo: nat, r: nat): nat {
    if r <= lo then 0 else MinNat(v.first, r - lo)
  }

  // Exactly when the end of the walk is the beginning of the file: if no
  // keyframe of the queue comes before both the reader and the restart position.
  lemma BofIsExactIff(v: View, b: Back, cfg: Config, w: seq<Packet>, lo: nat, r: nat)
    requires Ordered(w) && Shows(v, w, lo) && RestartsAt(b, w, r)
    requires Find(v, b, cfg).Bof?
    ensures r <= |w| && (KfCount(w, 0, r) == 0 <==> NextKeyframe(v.pkts, 0) >= BehindBoth(v, lo, r))
  {
    hide Find, KfCount, Ordered, GoBack, RestartsAt, NextKeyframe;
    CutInStream(b, w, r);
    FindGoesBack(v, b, cfg, w, lo, r);
    CountIsZero(w, 0, lo);
    if r <= lo {
      KfCountSplit(w, 0, r, lo);
    } else if lo + v.first <= r {
      WindowCount(v, w, lo, v.first, r - lo);
      WindowCount(v, w, lo, 0, v.first);
      KfCountSplit(w, 0, lo, r);
      KfCountSplit(w, lo, lo + v.first, r);
      CountIsZero(v.pkts, 0, v.first);
      BofMeansNone(v, b, cfg, r - lo);
    } else {
      WindowCount(v, w, lo, 0, r - lo);
      KfCountSplit(w, 0, lo, r);
      CountIsZero(v.pkts, 0, r - lo);
    }
  }

  lemma BofMeansNone(v: View, b: Back, cfg: Config, r: nat)
    requires v.first <= r <= |v.pkts| && GoBack(v, b, cfg, r).Bof?
    ensures KfCount(v.pkts, v.first, r) == 0
  {
    hide KfCount, KfFrom;
  }

  // So an honest reader renders a full batch, or else all there is, and only
  // ends at the beginning of the file.
  lemma StepRenders(v: View, b: Back, cfg: Config, w: seq<Packet>, lo: nat, r: nat)
    requires Ordered(w) && Shows(v, w, lo) && RestartsAt(b, w, r) && Honest(v, b)
    ensures var o := Find(v, b, cfg);
            && (o.Restart? ==> lo + o.restart < r <= |w| && KfCount(w, lo + o.restart, r) == MinNat(Batch(cfg), KfCount(w, 0, r)))
            && (o.Bof? ==> KfCount(w, 0, r) == 0)
  {
    hide Find, KfCount, Ordered, RestartsAt;
    var o := Find(v, b, cfg);
    if o.Restart? {
      RestartRendersIff(v, b, cfg, w, lo, r);
    } else if o.Bof? {
      FindGoesBack(v, b, cfg, w, lo, r);
      BofIsExactIff(v, b, cfg, w, lo, r);
    }
  }

  lemma {:induction false} CountIsZero(s: seq<Packet>, i: nat, j: nat)
    requires i <= j <= |s|
    ensures KfCount(s, i, j) == 0 <==> NextKeyframe(s, i) >= j
    decreases j - i
  {
    if i < j {
      CountIsZero(s, i + 1, j);
    }
  }

  // The first time, the restart position is set to a keyframe, or to EOF.
  lemma InitializeRestarts(v: View, b: Back, w: seq<Packet>, lo: nat)
    requires Ordered(w) && Shows(v, w, lo) && b.restartNext
    ensures var b' := Initialize(v, b);
            b'.restartNext || exists r: nat :: RestartsAt(b', w, r) && lo + v.first <= r && (r < |w| ==> w[r].keyframe)
  {
    var k := if v.first < |v.pkts| then NextKeyframe(v.pkts, v.first + 1) else |v.pkts|;
    var b' := Initialize(v, b);
    if k < |v.pkts| {
      assert v.pkts[k] == w[lo + k];
      assert RestartsAt(b', w, lo + k);
    } else if v.eof {
      assert RestartsAt(b', w, |w|);
    }
  }

  // --- The whole walk ---

  // Between successful steps, the queue and the reader may be anywhere.
  datatype Event =
    | Look(v: View, lo: nat)
    | MoveEarlier(v: View, aid: SeekAid, stepSize: real)

  function Next(b: Back, e: Event, cfg: Config): Back {
    match e
    case Look(v, lo) =>
      if v.first > |v.pkts| then b
      else
        var o := Find(v, b, cfg);
        if o.Restart? then BeginStep(Restarted(v, b, o)) else Restarted(v, b, o)
    case MoveEarlier(v, aid, stepSize) => ResumeEarlier(v, b, aid, stepSize).b
  }

  predicate Steps(b: Back, e: Event, cfg: Config) {
    e.Look? && e.v.first <= |e.v.pkts| && Find(e.v, b, cfg).Restart?
  }

  // The successive restart positions in the stream.
  function Cuts(b: Back, es: seq<Event>, cfg: Config): seq<nat>
    decreases |es|
  {
    if |es| == 0 then []
    else (if Steps(b, es[0], cfg) then [es[0].lo + Find(es[0].v, b, cfg).restart] else [])
         + Cuts(Next(b, es[0], cfg), es[1..], cfg)
  }

  ghost predicate Plausible(b: Back, es: seq<Event>, cfg: Config, w: seq<Packet>)
    decreases |es|
  {
    |es| > 0 ==>
      && (es[0].Look? ==> Shows(es[0].v, w, es[0].lo))
      && Plausible(Next(b, es[0], cfg), es[1..], cfg, w)
  }

  // The restart position after an event.
  function NextCut(b: Back, e: Event, cfg: Config, r: nat): nat {
    if Steps(b, e, cfg) then e.lo + Find(e.v, b, cfg).restart else r
  }

  // Every successful step renders all it should.
  predicate AllRendered(b: Back, es: seq<Event>, cfg: Config, r: nat)
    decreases |es|
  {
    |es| > 0 ==>
      && (Steps(b, es[0], cfg) ==> es[0].lo <= r && RendersAll(es[0].v, b, cfg, r - es[0].lo))
      && AllRendered(Next(b, es[0], cfg), es[1..], cfg, NextCut(b, es[0], cfg, r))
  }

  predicate AlwaysHonest(b: Back, es: seq<Event>, cfg: Config)
    decreases |es|
  {
    |es| > 0 ==>
      && (es[0].Look? && es[0].v.first <= |es[0].v.pkts| ==> Honest(es[0].v, b))
      && AlwaysHonest(Next(b, es[0], cfg), es[1..], cfg)
  }

  // Each cut is at a keyframe before the previous one, and what lies between
  // them is a full batch of keyframe runs, or all that is left.
  ghost predicate Tiles(w: seq<Packet>, r: nat, cs: seq<nat>, cfg: Config)
    requires r <= |w|
    decreases |cs|
  {
    |cs| > 0 ==>
      && cs[0] < r && w[cs[0]].keyframe
      && KfCount(w, cs[0], r) == MinNat(Batch(cfg), KfCount(w, 0, r))
      && Tiles(w, cs[0], cs[1..], cfg)
  }

  function LastCut(r: nat, cs: seq<nat>): nat {
    if |cs| == 0 then r else cs[|cs| - 1]
  }

  lemma NextKeepsRestart(b: Back, e: Event, cfg: Config, w: seq<Packet>, r: nat)
    requires Ordered(w) && RestartsAt(b, w, r) && (e.Look? ==> Shows(e.v, w, e.lo))
    ensures RestartsAt(Next(b, e, cfg), w, NextCut(b, e, cfg, r))
  {
    hide Find, RunMin, Shows, FindSeekTarget;
    if Steps(b, e, cfg) {
      StepBack(e.v, b, cfg, w, e.lo, r);
    }
  }

  lemma CutsStep(b: Back, es: seq<Event>, cfg: Config)
    requires |es| > 0
    ensures Cuts(b, es, cfg)
            == (if Steps(b, es[0], cfg) then [NextCut(b, es[0], cfg, 0)] else []) + Cuts(Next(b, es[0], cfg), es[1..], cfg)
  {
    hide Find;
  }

  lemma TilesStep(w: seq<Packet>, r: nat, c: nat, rest: seq<nat>, cfg: Config)
    requires r <= |w|
    ensures Tiles(w, r, [c] + rest, cfg)
            <==> c < r && w[c].keyframe && KfCount(w, c, r) == MinNat(Batch(cfg), KfCount(w, 0, r)) && Tiles(w, c, rest, cfg)
  {
    hide KfCount;
    assert ([c] + rest)[1..] == rest;
  }

  lemma CutInStream(b: Back, w: seq<Packet>, r: nat)
    requires RestartsAt(b, w, r)
    ensures r <= |w|
  {
  }

  // Walking backwards tiles the stream, so that nothing is left out and nothing
  // is rendered twice, if and only if every step renders all it should.
  lemma {:induction false} WalkTilesIff(b: Back, es: seq<Event>, cfg: Config, w: seq<Packet>, r: nat)
    requires Ordered(w) && RestartsAt(b, w, r) && Plausible(b, es, cfg, w)
    ensures r <= |w|
    ensures Tiles(w, r, Cuts(b, es, cfg), cfg) <==> AllRendered(b, es, cfg, r)
    decreases |es|
  {
    hide Find, KfCount, Next, RestartsAt, Shows, Ordered, RendersAll, Tiles, Cuts;
    CutInStream(b, w, r);
    if |es| == 0 {
      NoCuts(b, es, cfg, w, r);
    } else {
      var e := es[0];
      NextKeepsRestart(b, e, cfg, w, r);
      CutsStep(b, es, cfg);
      WalkTilesIff(Next(b, e, cfg), es[1..], cfg, w, NextCut(b, e, cfg, r));
      var rest := Cuts(Next(b, e, cfg), es[1..], cfg);
      if Steps(b, e, cfg) {
        StepBack(e.v, b, cfg, w, e.lo, r);
        RestartRendersIff(e.v, b, cfg, w, e.lo, r);
        TilesStep(w, r, NextCut(b, e, cfg, r), rest, cfg);
      } else {
        assert [] + rest == rest;
      }
    }
  }

  lemma NoCuts(b: Back, es: seq<Event>, cfg: Config, w: seq<Packet>, r: nat)
    requires es == [] && r <= |w|
    ensures Cuts(b, es, cfg) == [] && Tiles(w, r, [], cfg)
  {
  }

  // When the walk ends, it has come to the beginning of the file if and only if
  // the queue has no keyframe before both the reader and the last cut.
  lemma {:induction false} WalkEndsIff(b: Back, es: seq<Event>, cfg: Config, w: seq<Packet>, r: nat)
    requires Ordered(w) && RestartsAt(b, w, r) && Plausible(b, es, cfg, w)
    requires |es| > 0 && EndsAtBof(b, es, cfg)
    ensures var cut := LastCut(r, Cuts(b, es, cfg));
            && es[|es| - 1].Look? && cut <= |w|
            && var v, lo := es[|es| - 1].v, es[|es| - 1].lo;
               (KfCount(w, 0, cut) == 0 <==> NextKeyframe(v.pkts, 0) >= BehindBoth(v, lo, cut))
    decreases |es|
  {
    hide Find, KfCount, Next, RestartsAt, Shows, Ordered, Cuts, NextKeyframe;
    var e := es[0];
    CutInStream(b, w, r);
    CutsStep(b, es, cfg);
    NextKeepsRestart(b, e, cfg, w, r);
    var rest := Cuts(Next(b, e, cfg), es[1..], cfg);
    if |es| == 1 {
      NoCuts(Next(b, e, cfg), es[1..], cfg, w, |w|);
      BofIsExactIff(e.v, b, cfg, w, e.lo, r);
    } else {
      WalkEndsIff(Next(b, e, cfg), es[1..], cfg, w, NextCut(b, e, cfg, r));
      assert |rest| > 0 ==> LastCut(r, Cuts(b, es, cfg)) == LastCut(NextCut(b, e, cfg, r), rest);
    }
  }

  // An honest reader renders all it should.
  lemma {:induction false} HonestRendersAll(b: Back, es: seq<Event>, cfg: Config, w: seq<Packet>, r: nat)
    requires Ordered(w) && RestartsAt(b, w, r) && Plausible(b, es, cfg, w) && AlwaysHonest(b, es, cfg)
    ensures AllRendered(b, es, cfg, r)
    ensures |es| > 0 && EndsAtBof(b, es, cfg) ==>
              var v := es[|es| - 1].v; v.first <= |v.pkts| && NextKeyframe(v.pkts, 0) >= v.first
    decreases |es|
  {
    hide Find, KfCount, Next, RestartsAt, Shows, Ordered, NextKeyframe;
    if |es| > 0 {
      var e := es[0];
      NextKeepsRestart(b, e, cfg, w, r);
      if Steps(b, e, cfg) {
        StepBack(e.v, b, cfg, w, e.lo, r);
      }
      if |es| == 1 && EndsAtBof(b, es, cfg) {
        FindGoesBack(e.v, b, cfg, w, e.lo, r);
      }
      HonestRendersAll(Next(b, e, cfg), es[1..], cfg, w, NextCut(b, e, cfg, r));
    }
  }

  // So the walk of an honest reader tiles the stream, and ends at the beginning.
  lemma WalkTiles(b: Back, es: seq<Event>, cfg: Config, w: seq<Packet>, r: nat)
    requires Ordered(w) && RestartsAt(b, w, r) && Plausible(b, es, cfg, w) && AlwaysHonest(b, es, cfg)
    ensures r <= |w| && Tiles(w, r, Cuts(b, es, cfg), cfg)
    ensures |es| > 0 && EndsAtBof(b, es, cfg) ==>
              LastCut(r, Cuts(b, es, cfg)) <= |w| && KfCount(w, 0, LastCut(r, Cuts(b, es, cfg))) == 0
  {
    hide Cuts, Tiles, AllRendered, AlwaysHonest, Plausible, EndsAtBof, KfCount, NextKeyframe, RestartsAt, BehindBoth;
    WalkTilesIff(b, es, cfg, w, r);
    HonestRendersAll(b, es, cfg, w, r);
    if |es| > 0 && EndsAtBof(b, es, cfg) {
      WalkEndsIff(b, es, cfg, w, r);
      BehindIsBefore(es[|es| - 1].v, es[|es| - 1].lo, LastCut(r, Cuts(b, es, cfg)));
    }
  }

  lemma BehindIsBefore(v: View, lo: nat, r: nat)
    ensures BehindBoth(v, lo, r) <= v.first
  {
  }

  // The last event of the walk finds nothing left before the reader.
  predicate EndsAtBof(b: Back, es: seq<Event>, cfg: Config)
    requires |es| > 0
    decreases |es|
  {
    if |es| == 1 then es[0].Look? && es[0].v.first <= |es[0].v.pkts| && Find(es[0].v, b, cfg).Bof?
    else EndsAtBof(Next(b, es[0], cfg), es[1..], cfg)
  }

  // --- Seeks that are asked for ---

  // The state after a walk.
  function AfterWalk(b: Back, es: seq<Event>, cfg: Config): Back
    decreases |es|
  {
    if |es| == 0 then b else AfterWalk(Next(b, es[0], cfg), es[1..], cfg)
  }

  predicate Asks(b: Back, e: Event) {
    e.MoveEarlier? && ResumeEarlier(e.v, b, e.aid, e.stepSize).NeedsSeek?
  }

  // How often a low-level seek is asked for.
  function Requests(b: Back, es: seq<Event>, cfg: Config): nat
    decreases |es|
  {
    if |es| == 0 then 0 else (if Asks(b, es[0]) then 1 else 0) + Requests(Next(b, es[0], cfg), es[1..], cfg)
  }

  ghost predicate InSteps(es: seq<Event>, stepSize: real) {
    forall i :: 0 <= i < |es| && es[i].MoveEarlier? ==> es[i].stepSize == stepSize
  }

  // As long as no step succeeds, each seek that is asked for is at least one step
  // earlier than the one before.
  lemma {:induction false} RequestsGoEarlier(b: Back, es: seq<Event>, cfg: Config, stepSize: real)
    requires stepSize >= 0.0 && InSteps(es, stepSize) && Cuts(b, es, cfg) == []
    ensures AfterWalk(b, es, cfg).seekPos <= b.seekPos - Requests(b, es, cfg) as real * stepSize
    decreases |es|
  {
    hide Next, Cuts, Asks, Requests, AfterWalk;
    if |es| > 0 {
      var e := es[0];
      var b' := Next(b, e, cfg);
      FirstInSteps(es, stepSize);
      CutsStep(b, es, cfg);
      NextGoesEarlier(b, e, cfg);
      RequestsStep(b, es, cfg);
      RequestsGoEarlier(b', es[1..], cfg, stepSize);
      OneMoreStep(Requests(b', es[1..], cfg), stepSize);
    } else {
      NoRequests(b, es, cfg, stepSize);
    }
  }

  lemma RequestsStep(b: Back, es: seq<Event>, cfg: Config)
    requires |es| > 0
    ensures var b' := Next(b, es[0], cfg);
            && Requests(b, es, cfg) == Requests(b', es[1..], cfg) + (if Asks(b, es[0]) then 1 else 0)
            && AfterWalk(b, es, cfg) == AfterWalk(b', es[1..], cfg)
            && (Asks(b, es[0]) ==> es[0].MoveEarlier?)
  {
    hide Next, ResumeEarlier;
  }

  lemma NoRequests(b: Back, es: seq<Event>, cfg: Config, stepSize: real)
    requires es == []
    ensures AfterWalk(b, es, cfg) == b && Requests(b, es, cfg) as real * stepSize == 0.0
  {
  }

  lemma OneMoreStep(k: nat, stepSize: real)
    ensures (1 + k) as real * stepSize == stepSize + k as real * stepSize
  {
  }

  lemma FirstInSteps(es: seq<Event>, stepSize: real)
    requires |es| > 0 && InSteps(es, stepSize)
    ensures (es[0].MoveEarlier? ==> es[0].stepSize == stepSize) && InSteps(es[1..], stepSize)
  {
  }

  lemma NextGoesEarlier(b: Back, e: Event, cfg: Config)
    requires !Steps(b, e, cfg)
    ensures var b' := Next(b, e, cfg);
            if Asks(b, e) then b'.seekPos == b.seekPos - e.stepSize else b'.seekPos <= b.seekPos
  {
    hide Find, FindSeekTarget, RunMin;
    if e.MoveEarlier? {
      ResumeGoesEarlier(e.v, b, e.aid, e.stepSize);
    }
  }

  // perform_backward_seek(): the position to seek to, for all streams; the start of
  // the file if no stream has one.
  method BackwardSeekPosition(positions: seq<real>, startTime: real) returns (target: real)
    ensures forall i :: 0 <= i < |positions| && positions[i] != NOPTS ==> target <= positions[i]
    ensures if exists i :: 0 <= i < |positions| && positions[i] != NOPTS then target != NOPTS && target in positions
            else target == startTime
  {
    target := NOPTS;
    for n := 0 to |positions|
      invariant forall i :: 0 <= i < n && positions[i] != NOPTS ==> target != NOPTS && target <= positions[i]
      invariant target != NOPTS ==> exists i :: 0 <= i < n && positions[i] == target
    {
      target := PtsMin(target, positions[n]);
    }
    target := PtsOrDef(target, startTime);
  }

  // --- Delivering a batch ---

  datatype Taken = Taken(b: Back, preroll: bool, restart: bool)

  // dequeue_packet() with a packet to return
  function Take(b: Back, p: Packet): Taken {
    var preroll := if p.keyframe && b.rangePreroll >= 0 then b.rangePreroll - 1 else b.rangePreroll;
    Taken(b.(rangeCount := if p.keyframe then b.rangeCount - 1 else b.rangeCount,
             rangePreroll := preroll, rangeStarted := true),
          preroll >= 0, !b.rangeStarted)
  }

  // Whether a batch is complete.
  predicate StepsBack(b: Back, next: Option<Packet>, eof: bool) {
    b.rangeStarted && b.rangeCount == 0 && (if next.Some? then next.value.keyframe else eof)
  }

  // The state after the packets w[i..j] were taken.
  function Deliver(b: Back, w: seq<Packet>, i: nat, j: nat): Back
    requires i <= j <= |w|
    decreases j - i
  {
    if i == j then b else Take(Deliver(b, w, i, j - 1), w[j - 1]).b
  }

  lemma KfCountLast(w: seq<Packet>, i: nat, j: nat)
    requires i < j <= |w|
    ensures KfCount(w, i, j) == KfCount(w, i, j - 1) + (if w[j - 1].keyframe then 1 else 0)
  {
    KfCountSplit(w, i, j - 1, j);
    assert KfCount(w, j, j) == 0;
  }

  lemma {:induction false} DeliverState(b: Back, w: seq<Packet>, t: nat, j: nat)
    requires t <= j <= |w| && b.rangePreroll >= 0
    ensures var d, n := Deliver(b, w, t, j), KfCount(w, t, j);
            && d.rangeCount == b.rangeCount - n
            && d.rangePreroll == (if n <= b.rangePreroll then b.rangePreroll - n else -1)
            && d.rangeStarted == (b.rangeStarted || j > t)
    decreases j - t
  {
    if j > t {
      DeliverState(b, w, t, j - 1);
      KfCountLast(w, t, j);
    }
  }

  // After a successful step to target t, exactly the packets up to the old
  // restart position r are handed out before stepping back again. Those before
  // the new restart position x are marked as preroll, and only the first one as
  // a restart point. There are always keyframes left to count.
  lemma BatchDelivery(b: Back, w: seq<Packet>, t: nat, x: nat, r: nat, i: nat)
    requires t <= x < r <= |w| && w[t].keyframe && w[x].keyframe && (r < |w| ==> w[r].keyframe)
    requires !b.rangeStarted && b.rangePreroll == KfCount(w, t, x) && b.rangeCount == KfCount(w, t, r)
    requires t <= i < r
    ensures var d := Deliver(b, w, t, i);
            var taken := Take(d, w[i]);
            && !StepsBack(d, Some(w[i]), false)
            && (w[i].keyframe ==> d.rangeCount > 0)
            && (taken.preroll <==> i < x) && (taken.restart <==> i == t)
    ensures StepsBack(Deliver(b, w, t, r), if r < |w| then Some(w[r]) else None, r == |w|)
  {
    hide KfCount, Deliver;
    DeliverState(b, w, t, i);
    DeliverState(b, w, t, i + 1);
    DeliverState(b, w, t, r);
    KfCountLast(w, t, i + 1);
    KfCountSplit(w, t, i, r);
    KfCountSplit(w, t, i + 1, r);
    if i < x {
      KfCountSplit(w, t, i + 1, x);
    } else {
      KfCountSplit(w, t, x, i + 1);
      KfCountSplit(w, x, x + 1, i + 1);
      KfCountLast(w, x, x + 1);
    }
  }

  lemma {:induction false} DeliverKeeps(b: Back, w: seq<Packet>, t: nat, j: nat)
    requires t <= j <= |w|
    ensures var d := Deliver(b, w, t, j);
            d == b.(rangeCount := d.rangeCount, rangePreroll := d.rangePreroll, rangeStarted := d.rangeStarted)
    decreases j - t
  {
    if j > t {
      DeliverKeeps(b, w, t, j - 1);
    }
  }

  // The whole cycle. A successful step lets the reader go on from its target. The
  // packets up to the old restart position are handed out, those before the new one
  // as preroll; then the reader is stopped again, and the next step is looked for from
  // the new restart position.
  lemma StepDelivers(v: View, b: Back, cfg: Config, w: seq<Packet>, lo: nat, r: nat, i: nat)
    requires Ordered(w) && Shows(v, w, lo) && RestartsAt(b, w, r) && (r < |w| ==> w[r].keyframe)
    requires Find(v, b, cfg).Restart?
    requires lo + Find(v, b, cfg).target <= i < r
    ensures var o := Find(v, b, cfg);
            var t, x, b' := lo + o.target, lo + o.restart, Restarted(v, b, o);
            && !b'.restarting && t <= r <= |w|
            && var d, last := Deliver(b', w, t, i), Deliver(b', w, t, r);
            && !StepsBack(d, Some(w[i]), false)
            && (Take(d, w[i]).preroll <==> i < x) && (Take(d, w[i]).restart <==> i == t)
            && StepsBack(last, if r < |w| then Some(w[r]) else None, r == |w|)
            && BeginStep(last).restarting && RestartsAt(BeginStep(last), w, x)
  {
    hide Find, KfCount, KfFrom, RunMin, Deliver, Ordered, Take, StepsBack;
    StepBack(v, b, cfg, w, lo, r);
    var o := Find(v, b, cfg);
    var t, x, b' := lo + o.target, lo + o.restart, Restarted(v, b, o);
    assert o.target < |v.pkts| && o.restart < |v.pkts| by { FindGoesBack(v, b, cfg, w, lo, r); }
    BatchDelivery(b', w, t, x, r, i);
    DeliverKeeps(b', w, t, r);
  }

  // The seek position follows: it is the earliest time in the run of the target, so
  // that the next seek, and the test for the beginning of the file, start from there.
  lemma StepSeeksFrom(v: View, b: Back, cfg: Config, w: seq<Packet>, lo: nat, r: nat)
    requires Ordered(w) && Shows(v, w, lo) && RestartsAt(b, w, r)
    requires Find(v, b, cfg).Restart?
    ensures var t, b' := Find(v, b, cfg).target, Restarted(v, b, Find(v, b, cfg));
            && t < |v.pkts|
            && (forall k :: t <= k < RunEnd(v.pkts, t) && TimeOf(v.pkts[k]) != NOPTS ==> b'.seekPos <= TimeOf(v.pkts[k]))
            && (b'.seekPos == b.seekPos || exists k :: t <= k < RunEnd(v.pkts, t) && TimeOf(v.pkts[k]) == b'.seekPos)
  {
    hide Find, KfCount, KfFrom, Ordered;
    FindGoesBack(v, b, cfg, w, lo, r);
    var t := Find(v, b, cfg).target;
    MinTimeIsLeast(v.pkts, t, RunEnd(v.pkts, t));
  }

  // At the beginning of the file, the reader goes on, and is not stopped again.
  lemma BofReadsOn(v: View, b: Back, w: seq<Packet>, i: nat, j: nat, next: Option<Packet>, eof: bool)
    requires v.first <= |v.pkts| && i <= j <= |w|
    ensures var b' := Restarted(v, b, Bof); !b'.restarting && !StepsBack(Deliver(b', w, i, j), next, eof)
  {
    hide KfCount, Deliver;
    DeliverState(Restarted(v, b, Bof), w, i, j);
  }

  // --- A walk that ends too early ---

  // The keyframes of a queue that begins at the beginning of the file. Its seek
  // preroll is 2.0, so the start of the queue is later than its first keyframes.
  function ThreeRuns(): seq<Packet> {
    var p := Packet(0.0, 0.0, 0, true, 1, 1, false, NOPTS, NOPTS);
    [p, p.(pts := 1.0, dts := 1.0, pos := 1), p.(pts := 2.0, dts := 2.0, pos := 2)]
  }

  function ThreeView(first: nat): View {
    View(ThreeRuns(), first, true, true, 2.0, true, true)
  }

  function ThreeAid(): SeekAid {
    SeekAid([IndexEntry(0.0, 0), IndexEntry(1.0, 1), IndexEntry(2.0, 2)], 0, 2.0)
  }

  // The reader is sought to the last keyframe, and has to move back by one, since
  // a batch is two runs. When these were delivered, it is at EOF. There is
  // nothing behind it, and its seek position is before the start of the queue.
  function EarlyEnd(): seq<Event> {
    [Look(ThreeView(2), 0), MoveEarlier(ThreeView(2), ThreeAid(), 60.0), Look(ThreeView(1), 0), Look(ThreeView(3), 0)]
  }

  lemma ThreeScan()
    ensures FindSeekTarget(ThreeRuns(), 0, ThreeAid().index, 2.0, 4.0 - 0.001, false) == Some(1)
    ensures RunMin(ThreeRuns(), 1) == 1.0
  {
    var w, es := ThreeRuns(), ThreeAid().index;
    assert es[..2] == [IndexEntry(0.0, 0), IndexEntry(1.0, 1)];
    assert LastAtMost(es, 1.999) == LastAtMost(es[..2], 1.999) == 1;
    assert RunEnd(w, 1) == 2 && RunEnd(w, 2) == 3;
    assert MinTime(w, 1, 1) == NOPTS && MinTime(w, 1, 2) == 1.0 && MinTime(w, 2, 2) == NOPTS && MinTime(w, 2, 3) == 2.0;
    assert Scan(w, 2, 1.999, false, Some(1)) == Some(1);
  }

  lemma ThreeCounts()
    ensures var w := ThreeRuns();
            KfCount(w, 2, 3) == 1 && KfCount(w, 1, 3) == 2 && KfCount(w, 3, 3) == 0 && KfCount(w, 0, 1) == 1
            && KfCount(w, 0, 3) == 3
            && KfFrom(w, 1, 3, 0) == 1
  {
    var w := ThreeRuns();
    assert KfCount(w, 3, 3) == 0 && KfCount(w, 2, 3) == 1 && KfCount(w, 1, 3) == 2 && KfCount(w, 1, 1) == 0;
  }

  // What becomes of it, event by event.
  lemma EarlySteps(batch: nat)
    requires batch >= 2
    ensures var cfg, es := Config(batch, 0), EarlyEnd();
            var b := Initialize(ThreeView(2), Back(true, NOPTS, -1, false, true, 4.0, false, 0, 0));
            var b1 := b.(seekPos := 1.0);
            && Find(ThreeView(2), b, cfg) == Earlier && Next(b, es[0], cfg) == b && Next(b, es[1], cfg) == b1
            && Find(ThreeView(1), b1, cfg) == Restart(1, 1, 2, 0) && Find(ThreeView(3), Next(b1, es[2], cfg), cfg) == Bof
  {
    ThreeScan();
    ThreeCounts();
    hide KfCount, KfFrom, FindSeekTarget, RunMin;
    assert ThreeRuns()[0..0 + |ThreeRuns()|] == ThreeRuns();
  }

  function EarlyStart(): Back {
    Initialize(ThreeView(2), Back(true, NOPTS, -1, false, true, 4.0, false, 0, 0))
  }

  // The first event of a walk.
  lemma WalkStep(b: Back, e: Event, es: seq<Event>, cfg: Config, w: seq<Packet>)
    ensures Cuts(b, [e] + es, cfg)
            == (if Steps(b, e, cfg) then [NextCut(b, e, cfg, 0)] else []) + Cuts(Next(b, e, cfg), es, cfg)
    ensures Plausible(b, [e] + es, cfg, w) <==> (e.Look? ==> Shows(e.v, w, e.lo)) && Plausible(Next(b, e, cfg), es, cfg, w)
    ensures es != [] ==> EndsAtBof(b, [e] + es, cfg) == EndsAtBof(Next(b, e, cfg), es, cfg)
  {
    hide Find, Next, Shows;
    assert ([e] + es)[1..] == es;
  }

  lemma EarlyWalk(batch: nat)
    requires batch >= 2
    ensures var cfg := Config(batch, 0);
            && Cuts(EarlyStart(), EarlyEnd(), cfg) == [1] && EndsAtBof(EarlyStart(), EarlyEnd(), cfg)
            && Plausible(EarlyStart(), EarlyEnd(), cfg, ThreeRuns())
  {
    hide FindSeekTarget, RunMin, Find, Next, Initialize, Cuts, Plausible, EndsAtBof;
    var w, cfg, b, es := ThreeRuns(), Config(batch, 0), EarlyStart(), EarlyEnd();
    var b1 := b.(seekPos := 1.0);
    var b2 := Next(b1, es[2], cfg);
    EarlySteps(batch);
    EarlyLast(b2, cfg);
    assert w[0..0 + |w|] == w;
    WalkStep(b1, es[2], [es[3]], cfg, w);
    WalkStep(b, es[1], [es[2]] + [es[3]], cfg, w);
    WalkStep(b, es[0], [es[1]] + ([es[2]] + [es[3]]), cfg, w);
    assert es == [es[0]] + ([es[1]] + ([es[2]] + [es[3]]));
  }

  lemma EarlyLast(b: Back, cfg: Config)
    requires Find(ThreeView(3), b, cfg) == Bof
    ensures var e := Look(ThreeView(3), 0);
            Cuts(b, [e], cfg) == [] && EndsAtBof(b, [e], cfg) && Plausible(b, [e], cfg, ThreeRuns())
  {
    hide Find, Next;
    assert ThreeRuns()[0..0 + |ThreeRuns()|] == ThreeRuns();
  }

  // The end is declared with one run left to deliver. If the batch is larger,
  // that is also a step which renders less than it should.
  lemma PrerollSkipsRuns(batch: nat)
    requires batch >= 2
    ensures var w, cfg := ThreeRuns(), Config(batch, 0);
            var b := Initialize(ThreeView(2), Back(true, NOPTS, -1, false, true, 4.0, false, 0, 0));
            && Ordered(w) && RestartsAt(b, w, 3) && Plausible(b, EarlyEnd(), cfg, w)
            && Cuts(b, EarlyEnd(), cfg) == [1] && EndsAtBof(b, EarlyEnd(), cfg)
            && KfCount(w, 0, 1) == 1 && (batch > 2 ==> !Tiles(w, 3, [1], cfg))
  {
    hide KfFrom, KfCount, FindSeekTarget, RunMin, Find, Next, Plausible, Cuts, EndsAtBof, EarlyEnd;
    ThreeCounts();
    EarlyWalk(batch);
    assert Ordered(ThreeRuns()) by { hide Initialize; }
    assert RestartsAt(EarlyStart(), ThreeRuns(), 3);
  }

  // --- The search, step by step ---

  // A keyframe is found by the number of keyframes before it.
  lemma {:induction false} KfFromAt(s: seq<Packet>, i: nat, j: nat, t: nat)
    requires i <= t < j <= |s| && s[t].keyframe
    ensures KfCount(s, i, t) < KfCount(s, i, j) && KfFrom(s, i, j, KfCount(s, i, t)) == t
    decreases t - i
  {
    if i < t {
      KfFromAt(s, i + 1, j, t);
    }
  }

  class BackwardStream {
    var v: View
    var back: Back
    const cfg: Config

    constructor (v: View, back: Back, cfg: Config)
      ensures this.v == v && this.back == back && this.cfg == cfg
    {
      this.v := v;
      this.back := back;
      this.cfg := cfg;
    }

    // The number of keyframes in [reader, r), and the last of them.
    method CountKeyframes(r: nat) returns (numKf: nat, last: Option<nat>)
      requires v.first <= r <= |v.pkts|
      ensures numKf == KfCount(v.pkts, v.first, r)
      ensures if numKf == 0 then last == None else last == Some(KfFrom(v.pkts, v.first, r, numKf - 1))
    {
      numKf, last := 0, None;
      for i := v.first to r
        invariant numKf + KfCount(v.pkts, i, r) == KfCount(v.pkts, v.first, r)
        invariant numKf == KfCount(v.pkts, v.first, i)
        invariant numKf > 0 ==> numKf <= KfCount(v.pkts, v.first, r) && last == Some(KfFrom(v.pkts, v.first, r, numKf - 1))
        invariant numKf == 0 ==> last == None
      {
        KfCountLast(v.pkts, v.first, i + 1);
        if v.pkts[i].keyframe {
          KfFromAt(v.pkts, v.first, r, i);
          numKf := numKf + 1;
          last := Some(i);
        }
      }
    }

    // The keyframe with k keyframes between the given position and it.
    method FindKeyframe(from: nat, r: nat, k: nat) returns (t: nat)
      requires from <= r <= |v.pkts| && k < KfCount(v.pkts, from, r)
      ensures t == KfFrom(v.pkts, from, r, k)
    {
      t := from;
      var cur := 0;
      while true
        invariant from <= t < r && cur == KfCount(v.pkts, from, t) && cur <= k
        invariant cur + KfCount(v.pkts, t, r) == KfCount(v.pkts, from, r)
        decreases r - t
      {
        if v.pkts[t].keyframe {
          if cur == k {
            KfFromAt(v.pkts, from, r, t);
            return;
          }
          cur := cur + 1;
        }
        KfCountLast(v.pkts, from, t + 1);
        t := t + 1;
      }
    }

    // Makes a restart position out of the initial state, if there are packets
    // enough.
    method InitializeRestart()
      requires v.first <= |v.pkts|
      modifies this`back
      ensures back == Initialize(v, old(back))
    {
      if back.restartNext {
        var cur := if v.first < |v.pkts| then v.first + 1 else |v.pkts|;
        while cur < |v.pkts| && !v.pkts[cur].keyframe
          invariant v.first < |v.pkts| ==> v.first < cur <= |v.pkts| && NextKeyframe(v.pkts, cur) == NextKeyframe(v.pkts, v.first + 1)
          invariant v.first == |v.pkts| ==> cur == |v.pkts|
        {
          cur := cur + 1;
        }
        if cur < |v.pkts| {
          back := back.(restartDts := v.pkts[cur].dts, restartPos := v.pkts[cur].pos, restartEof := false, restartNext := false);
        } else if v.eof {
          back := back.(restartEof := true, restartNext := false);
        }
      }
    }

    // How far to go back from position r.
    method ChooseBatch(r: nat) returns (o: Outcome)
      requires v.first <= r <= |v.pkts|
      ensures o == GoBack(v, back, cfg, r)
    {
      hide KfCount, KfFrom, RunMin;
      var numKf, pre1 := CountKeyframes(r);
      var batch := if cfg.batch > 1 then cfg.batch else 1;
      var total := batch + cfg.preroll;
      var isBof := v.isBof && (v.first == 0 || back.seekPos < v.seekStart);
      var gotTotal := if numKf < total && isBof then numKf else total;
      var gotPreroll := if gotTotal > batch then gotTotal - batch else 0;
      if gotTotal == 0 || gotTotal > numKf {
        return if isBof then Bof else Earlier;
      }
      var target;
      if gotTotal == 1 {
        target := pre1.value;
      } else {
        target := FindKeyframe(v.first, r, numKf - gotTotal);
      }
      KfFromCounts(v.pkts, v.first, r, numKf - gotTotal);
      var restart := FindKeyframe(target, r, gotPreroll);
      o := Restart(target, restart, gotTotal, gotPreroll);
    }

    // The part that goes back from position r, and sets up the next batch.
    method SetUpBatch(r: nat) returns (o: Outcome)
      requires v.first <= r <= |v.pkts|
      modifies this
      ensures o == GoBack(old(v), old(back), cfg, r)
      ensures back == Restarted(old(v), old(back), o)
      ensures v == old(v).(first := if o.Restart? then o.target else old(v).first)
    {
      hide KfCount, KfFrom, RunMin, GoBack;
      GoBackInRange(v, back, cfg, r);
      o := ChooseBatch(r);
      if o.Bof? {
        back := back.(restarting := false, rangeStarted := false, rangeCount := -1, rangePreroll := 0);
      } else if o.Restart? {
        var seekPts := RunMin(v.pkts, o.target);
        back := back.(seekPos := if seekPts != NOPTS then seekPts else back.seekPos,
                      restartDts := v.pkts[o.restart].dts, restartPos := v.pkts[o.restart].pos,
                      restarting := false, rangeStarted := false, rangeCount := o.total, rangePreroll := o.preroll);
        v := v.(first := o.target);
      }
    }

    // find_backward_restart_pos(), up to resume_earlier
    method FindBackwardRestartPos() returns (o: Outcome)
      requires v.first <= |v.pkts|
      modifies this
      ensures var b := Initialize(old(v), old(back));
              if !old(back).restarting then o == Wait && v == old(v) && back == old(back)
              else
                && o == Find(old(v), b, cfg) && back == Restarted(old(v), b, o)
                && v == old(v).(first := if o.Restart? then o.target else old(v).first)
    {
      if !back.restarting {
        return Wait;
      }
      InitializeRestart();
      if back.restartNext {
        return Wait;
      }
      hide GoBack;
      if back.restartEof || v.first == |v.pkts| {
        if !v.eof {
          return Wait;
        }
        o := SetUpBatch(|v.pkts|);
        return;
      }
      var first, last := v.pkts[v.first], v.pkts[|v.pkts| - 1];
      if (v.correctDts && last.dts < back.restartDts) || (v.correctPos && last.pos < back.restartPos) {
        return Wait;
      }
      if (v.correctDts && first.dts > back.restartDts) || (v.correctPos && first.pos > back.restartPos) {
        return Earlier;
      }
      var r := v.first;
      while r < |v.pkts| && !Matches(v, v.pkts[r], back)
        invariant v.first <= r <= |v.pkts| && FindMatch(v, back, r) == FindMatch(v, back, v.first)
      {
        r := r + 1;
      }
      if r == |v.pkts| {
        return Uncooperative;
      }
      o := SetUpBatch(r);
    }

    // The reader has to go back before what it had so far.
    method MoveBack(aid: SeekAid, stepSize: real) returns (needSeek: bool)
      requires v.first <= |v.pkts|
      modifies this
      ensures var r := ResumeEarlier(old(v), old(back), aid, stepSize);
              && back == r.b && needSeek == r.NeedsSeek?
              && v == old(v).(first := if r.Moved? then r.first else old(v).first)
      ensures needSeek ==> back.seekPos == old(back).seekPos - stepSize
      ensures !needSeek ==> back.seekPos <= old(back).seekPos
    {
      hide FindSeekTarget, RunMin;
      needSeek := false;
      if back.seekPos != NOPTS {
        var t := FindSeekTarget(v.pkts, aid.base, aid.index, aid.preroll, back.seekPos - 0.001, false);
        if t.Some? && t.value < |v.pkts| && t.value != v.first {
          back := back.(seekPos := PtsMin(back.seekPos, RunMin(v.pkts, t.value)));
          v := v.(first := t.value);
        } else {
          back := back.(seekPos := back.seekPos - stepSize);
          needSeek := true;
        }
      }
    }

    // The part of dequeue_packet() that steps back when a batch was delivered.
    method StepBackIfDelivered() returns (o: Outcome)
      requires v.first <= |v.pkts|
      modifies this
      ensures var next := if old(v).first < |old(v).pkts| then Some(old(v).pkts[old(v).first]) else None;
              if !StepsBack(old(back), next, old(v).eof) then o == Wait && v == old(v) && back == old(back)
              else
                var b := BeginStep(old(back));
                o == Find(old(v), b, cfg) && back == Restarted(old(v), b, o)
                && v == old(v).(first := if o.Restart? then o.target else old(v).first)
    {
      hide Find, Restarted;
      o := Wait;
      var eof := v.first == |v.pkts| && v.eof;
      if back.rangeStarted && back.rangeCount == 0 && ((v.first < |v.pkts| && v.pkts[v.first].keyframe) || eof) {
        back := back.(restarting := true, restartEof := false, restartNext := false);
        o := FindBackwardRestartPos();
      }
    }

    // The part of dequeue_packet() for backward playback that returns a packet.
    method TakePacket() returns (preroll: bool, restart: bool)
      requires v.first < |v.pkts|
      requires v.pkts[v.first].keyframe ==> back.rangeCount > 0
      modifies this
      ensures var t := Take(old(back), old(v).pkts[old(v).first]);
              back == t.b && preroll == t.preroll && restart == t.restart
      ensures v == old(v).(first := old(v).first + 1)
    {
      var pkt := v.pkts[v.first];
      v := v.(first := v.first + 1);
      preroll, restart := false, false;
      if pkt.keyframe {
        assert back.rangeCount > 0;
        back := back.(rangeCount := back.rangeCount - 1);
        if back.rangePreroll >= 0 {
          back := back.(rangePreroll := back.rangePreroll - 1);
        }
      }
      if back.rangePreroll >= 0 {
        preroll := true;
      }
      if !back.rangeStarted {
        restart := true;
        back := back.(rangeStarted := true);
      }
    }
  }
}