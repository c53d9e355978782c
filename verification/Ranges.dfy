// Cached ranges: one queue per stream, and the time span that can be seeked to.

module Ranges {
  import opened Timestamps
  import opened Queues

  const MAX_SEEK_RANGES: nat := 10

  // What does not change about a stream while it is being demuxed.
  datatype StreamConfig = StreamConfig(selected: bool, eager: bool, video: bool, preroll: real)

  datatype Range = Range(queues: seq<Queue>, seekStart: real, seekEnd: real, isBof: bool, isEof: bool)

  // Only selected non-sparse streams determine the seekable span.
  predicate Counts(cfg: StreamConfig) {
    cfg.selected && cfg.eager
  }

  // --- The seekable span ---

  // The span over the first n queues. Queues that start at the beginning of
  // the file impose no start, queues that reach its end impose no end.
  function MaxStart(qs: seq<Queue>, cfg: seq<StreamConfig>, n: nat): real
    requires n <= |qs| == |cfg|
  {
    if n == 0 then NOPTS
    else
      var m := MaxStart(qs, cfg, n - 1);
      if Counts(cfg[n - 1]) && !qs[n - 1].isBof then PtsMax(m, qs[n - 1].seekStart) else m
  }

  function MinBofStart(qs: seq<Queue>, cfg: seq<StreamConfig>, n: nat): real
    requires n <= |qs| == |cfg|
  {
    if n == 0 then NOPTS
    else
      var m := MinBofStart(qs, cfg, n - 1);
      if Counts(cfg[n - 1]) && qs[n - 1].isBof then PtsMin(m, qs[n - 1].seekStart) else m
  }

  function MinEnd(qs: seq<Queue>, cfg: seq<StreamConfig>, n: nat): real
    requires n <= |qs| == |cfg|
  {
    if n == 0 then NOPTS
    else
      var m := MinEnd(qs, cfg, n - 1);
      if Counts(cfg[n - 1]) && !qs[n - 1].isEof then PtsMin(m, qs[n - 1].seekEnd) else m
  }

  function MaxEofEnd(qs: seq<Queue>, cfg: seq<StreamConfig>, n: nat): real
    requires n <= |qs| == |cfg|
  {
    if n == 0 then NOPTS
    else
      var m := MaxEofEnd(qs, cfg, n - 1);
      if Counts(cfg[n - 1]) && qs[n - 1].isEof then PtsMax(m, qs[n - 1].seekEnd) else m
  }

  predicate AllBof(qs: seq<Queue>, cfg: seq<StreamConfig>, n: nat)
    requires n <= |qs| == |cfg|
  {
    forall i :: 0 <= i < n && Counts(cfg[i]) ==> qs[i].isBof
  }

  predicate AllEof(qs: seq<Queue>, cfg: seq<StreamConfig>, n: nat)
    requires n <= |qs| == |cfg|
  {
    forall i :: 0 <= i < n && Counts(cfg[i]) ==> qs[i].isEof
  }

  // An empty or inverted span makes the whole range unseekable.
  predicate BadSpan(q: Queue) {
    && q.seekStart >= q.seekEnd
    && !(q.isEof && |q.pkts| == 0)
    && !(q.seekStart == q.seekEnd && q.seekStart != NOPTS)
  }

  // The first queue with a bad span, or the number of queues.
  function FirstBad(qs: seq<Queue>, cfg: seq<StreamConfig>, i: nat): (k: nat)
    requires i <= |qs| == |cfg|
    ensures i <= k <= |qs|
    ensures k < |qs| ==> Counts(cfg[k]) && BadSpan(qs[k])
    ensures forall j :: i <= j < k && Counts(cfg[j]) ==> !BadSpan(qs[j])
    decreases |qs| - i
  {
    if i == |qs| || (Counts(cfg[i]) && BadSpan(qs[i])) then i else FirstBad(qs, cfg, i + 1)
  }

  // A pruned sparse packet is missing after the start of the other streams.
  function SparseStart(qs: seq<Queue>, cfg: seq<StreamConfig>, start: real, n: nat): real
    requires n <= |qs| == |cfg|
  {
    if n == 0 then start
    else
      var s := SparseStart(qs, cfg, start, n - 1);
      var q := qs[n - 1];
      if cfg[n - 1].selected && !cfg[n - 1].eager && q.lastPruned != NOPTS && s != NOPTS
      then PtsMax(s, q.lastPruned + 0.1) else s
  }

  // update_seek_ranges()
  function UpdateSeekRanges(r: Range, cfg: seq<StreamConfig>): Range
    requires |r.queues| == |cfg|
  {
    var qs, n := r.queues, |r.queues|;
    var bad := FirstBad(qs, cfg, 0);
    if bad < n then
      Range(qs, NOPTS, NOPTS, AllBof(qs, cfg, bad + 1), AllEof(qs, cfg, bad + 1))
    else
      var isBof, isEof := AllBof(qs, cfg, n), AllEof(qs, cfg, n);
      var end := if isEof then MaxEofEnd(qs, cfg, n) else MinEnd(qs, cfg, n);
      var start := SparseStart(qs, cfg, if isBof then MinBofStart(qs, cfg, n) else MaxStart(qs, cfg, n), n);
      if start >= end then Range(qs, NOPTS, NOPTS, isBof, isEof)
      else Range(qs, start, end, isBof, isEof)
  }

  // No queue that counts starts after the range, unless it is at the
  // beginning of the file.
  ghost predicate StartsCovered(r: Range, cfg: seq<StreamConfig>)
    requires |r.queues| == |cfg|
  {
    r.seekStart != NOPTS ==>
      forall n :: 0 <= n < |cfg| && Counts(cfg[n]) && !r.queues[n].isBof ==> r.queues[n].seekStart <= r.seekStart
                                                                             || r.queues[n].seekStart == NOPTS
  }

  lemma {:induction false} MaxStartCovers(qs: seq<Queue>, cfg: seq<StreamConfig>, n: nat, i: nat)
    requires i < n <= |qs| == |cfg|
    requires Counts(cfg[i]) && !qs[i].isBof && qs[i].seekStart != NOPTS
    ensures MaxStart(qs, cfg, n) != NOPTS && qs[i].seekStart <= MaxStart(qs, cfg, n)
  {
    if i < n - 1 {
      MaxStartCovers(qs, cfg, n - 1, i);
    }
  }

  lemma {:induction false} SparseStartGrows(qs: seq<Queue>, cfg: seq<StreamConfig>, start: real, n: nat)
    requires n <= |qs| == |cfg|
    ensures start == NOPTS ==> SparseStart(qs, cfg, start, n) == NOPTS
    ensures SparseStart(qs, cfg, start, n) >= start
  {
    if n > 0 {
      SparseStartGrows(qs, cfg, start, n - 1);
    }
  }

  // A recomputed span is empty or proper, it covers the starts of the queues
  // that are not at the beginning of the file, and recomputing it again changes
  // nothing.
  lemma UpdatedSpan(r: Range, cfg: seq<StreamConfig>)
    requires |r.queues| == |cfg|
    ensures var u := UpdateSeekRanges(r, cfg);
            && u.queues == r.queues
            && ((u.seekStart == NOPTS && u.seekEnd == NOPTS) || u.seekStart < u.seekEnd)
            && StartsCovered(u, cfg)
            && UpdateSeekRanges(u, cfg) == u
  {
    var u := UpdateSeekRanges(r, cfg);
    var qs, n := r.queues, |r.queues|;
    if u.seekStart != NOPTS {
      forall i | 0 <= i < n && Counts(cfg[i]) && !qs[i].isBof && qs[i].seekStart != NOPTS
        ensures qs[i].seekStart <= u.seekStart
      {
        MaxStartCovers(qs, cfg, n, i);
        SparseStartGrows(qs, cfg, MaxStart(qs, cfg, n), n);
      }
    }
  }

  // --- Queues without a start ---

  // The configuration without stream i.
  function Without(cfg: seq<StreamConfig>, i: nat): (r: seq<StreamConfig>)
    requires i < |cfg|
    ensures |r| == |cfg| && !r[i].selected && forall j :: 0 <= j < |cfg| && j != i ==> r[j] == cfg[j]
  {
    cfg[i := cfg[i].(selected := false)]
  }

  lemma {:induction false} WithoutBounds(qs: seq<Queue>, cfg: seq<StreamConfig>, i: nat, n: nat)
    requires n <= |qs| == |cfg| && i < |cfg| && Counts(cfg[i]) && qs[i].seekStart == NOPTS
    ensures MaxStart(qs, cfg, n) == MaxStart(qs, Without(cfg, i), n)
    ensures MinBofStart(qs, cfg, n) == MinBofStart(qs, Without(cfg, i), n)
    ensures MinEnd(qs, cfg, n)
            == if i < n && !qs[i].isEof then PtsMin(MinEnd(qs, Without(cfg, i), n), qs[i].seekEnd)
               else MinEnd(qs, Without(cfg, i), n)
  {
    if n > 0 {
      WithoutBounds(qs, cfg, i, n - 1);
    }
  }

  lemma {:induction false} WithoutSparse(qs: seq<Queue>, cfg: seq<StreamConfig>, i: nat, start: real, n: nat)
    requires n <= |qs| == |cfg| && i < |cfg| && cfg[i].eager
    ensures SparseStart(qs, cfg, start, n) == SparseStart(qs, Without(cfg, i), start, n)
  {
    if n > 0 {
      WithoutSparse(qs, cfg, i, start, n - 1);
    }
  }

  // A queue without a start does not keep its range from starting before it, even
  // if it has packets: the range starts where the other queues let it start. And if
  // the queue is ended, it does not end the range either.
  lemma SpanIgnoresNoStart(r: Range, cfg: seq<StreamConfig>, i: nat)
    requires |r.queues| == |cfg| && i < |cfg| && Counts(cfg[i])
    requires var q := r.queues[i];
             && q.seekStart == NOPTS && !BadSpan(q)
             && (q.isBof || !AllBof(r.queues, Without(cfg, i), |cfg|)) && !AllEof(r.queues, Without(cfg, i), |cfg|)
    requires UpdateSeekRanges(r, Without(cfg, i)).seekStart < UpdateSeekRanges(r, Without(cfg, i)).seekEnd
    ensures var u, v, q := UpdateSeekRanges(r, cfg), UpdateSeekRanges(r, Without(cfg, i)), r.queues[i];
            var end := if q.isEof then v.seekEnd else PtsMin(v.seekEnd, q.seekEnd);
            && u.seekStart == (if v.seekStart >= end then NOPTS else v.seekStart)
            && u.seekEnd == (if v.seekStart >= end then NOPTS else end)
  {
    var qs, n := r.queues, |cfg|;
    var without := Without(cfg, i);
    WithoutBounds(qs, cfg, i, n);
    assert AllBof(qs, cfg, n) == (AllBof(qs, without, n) && qs[i].isBof);
    assert !AllEof(qs, cfg, n);
    SameBad(qs, cfg, i, 0);
    var start := if AllBof(qs, cfg, n) then MinBofStart(qs, cfg, n) else MaxStart(qs, cfg, n);
    WithoutSparse(qs, cfg, i, start, n);
    hide MaxStart, MinBofStart, MinEnd, SparseStart, FirstBad, AllBof, AllEof;
  }

  lemma {:induction false} SameBad(qs: seq<Queue>, cfg: seq<StreamConfig>, i: nat, k: nat)
    requires k <= |qs| == |cfg| && i < |cfg| && !BadSpan(qs[i])
    ensures FirstBad(qs, cfg, k) == FirstBad(qs, Without(cfg, i), k)
    decreases |qs| - k
  {
    hide BadSpan;
    if k < |qs| {
      SameBad(qs, cfg, i, k + 1);
    }
  }

  // A cleared range has no span.
  function ClearAll(qs: seq<Queue>): (r: seq<Queue>)
    ensures |r| == |qs|
  {
    seq(|qs|, i requires 0 <= i < |qs| => Clear(qs[i]))
  }

  // clear_cached_range()
  function ClearRange(r: Range, cfg: seq<StreamConfig>): Range
    requires |r.queues| == |cfg|
  {
    UpdateSeekRanges(r.(queues := ClearAll(r.queues)), cfg)
  }

  lemma {:induction false} NothingCounts(qs: seq<Queue>, cfg: seq<StreamConfig>, n: nat)
    requires n <= |qs| == |cfg|
    requires forall i :: 0 <= i < n ==> !Counts(cfg[i])
    ensures MaxEofEnd(qs, cfg, n) == MinBofStart(qs, cfg, n) == NOPTS
  {
    if n > 0 {
      NothingCounts(qs, cfg, n - 1);
    }
  }

  lemma ClearedHasNoSpan(r: Range, cfg: seq<StreamConfig>)
    requires |r.queues| == |cfg|
    ensures ClearRange(r, cfg).seekStart == NOPTS && ClearRange(r, cfg).seekEnd == NOPTS
    ensures ClearRange(r, cfg).queues == ClearAll(r.queues)
  {
    var qs := ClearAll(r.queues);
    if FirstBad(qs, cfg, 0) == |qs| {
      forall i | 0 <= i < |qs|
        ensures !Counts(cfg[i])
      {
        assert BadSpan(qs[i]);
      }
      NothingCounts(qs, cfg, |qs|);
      SparseStartGrows(qs, cfg, NOPTS, |qs|);
    }
  }

  // --- Bytes ---

  function QueuesBytes(qs: seq<Queue>): int {
    if |qs| == 0 then 0 else QueuesBytes(qs[..|qs| - 1]) + QueueBytes(qs[|qs| - 1])
  }

  function RangeBytes(r: Range): int {
    QueuesBytes(r.queues)
  }

  function TotalBytes(rs: seq<Range>): int {
    if |rs| == 0 then 0 else TotalBytes(rs[..|rs| - 1]) + RangeBytes(rs[|rs| - 1])
  }

  lemma {:induction false} QueuesBytesUpdate(qs: seq<Queue>, n: nat, q: Queue)
    requires n < |qs|
    ensures QueuesBytes(qs[n := q]) == QueuesBytes(qs) - QueueBytes(qs[n]) + QueueBytes(q)
    decreases |qs|
  {
    var last := |qs| - 1;
    if n == last {
      assert qs[n := q][..last] == qs[..last];
    } else {
      QueuesBytesUpdate(qs[..last], n, q);
      assert qs[n := q][..last] == qs[..last][n := q];
    }
  }

  lemma {:induction false} TotalBytesUpdate(rs: seq<Range>, n: nat, r: Range)
    requires n < |rs|
    ensures TotalBytes(rs[n := r]) == TotalBytes(rs) - RangeBytes(rs[n]) + RangeBytes(r)
    decreases |rs|
  {
    var last := |rs| - 1;
    if n == last {
      assert rs[n := r][..last] == rs[..last];
    } else {
      TotalBytesUpdate(rs[..last], n, r);
      assert rs[n := r][..last] == rs[..last][n := r];
    }
  }

  lemma {:induction false} TotalBytesSplit(rs: seq<Range>, ss: seq<Range>)
    ensures TotalBytes(rs + ss) == TotalBytes(rs) + TotalBytes(ss)
    decreases |ss|
  {
    if |ss| == 0 {
      assert rs + ss == rs;
    } else {
      var last := |ss| - 1;
      TotalBytesSplit(rs, ss[..last]);
      assert (rs + ss)[..|rs + ss| - 1] == rs + ss[..last];
    }
  }

  function RemoveAt<T>(s: seq<T>, n: nat): seq<T>
    requires n < |s|
  {
    s[..n] + s[n + 1..]
  }

  lemma TotalBytesRemove(rs: seq<Range>, n: nat)
    requires n < |rs|
    ensures TotalBytes(RemoveAt(rs, n)) == TotalBytes(rs) - RangeBytes(rs[n])
  {
    hide RangeBytes;
    var a, b := rs[..n], rs[n + 1..];
    TotalBytesSplit(a, b);
    TotalBytesSplit(rs[..n + 1], b);
    assert rs == rs[..n + 1] + b;
    assert rs[..n + 1][..n] == a;
  }

  lemma {:induction false} ClearedBytes(qs: seq<Queue>)
    ensures QueuesBytes(ClearAll(qs)) == 0
    decreases |qs|
  {
    if |qs| > 0 {
      ClearedBytes(qs[..|qs| - 1]);
      assert ClearAll(qs)[..|qs| - 1] == ClearAll(qs[..|qs| - 1]);
    }
  }

  // --- Evicting ranges ---

  predicate Keep(r: Range, seekable: bool) {
    r.seekStart != NOPTS && seekable
  }

  function Kept(rs: seq<Range>, seekable: bool): seq<Range> {
    if |rs| == 0 then []
    else Kept(rs[..|rs| - 1], seekable) + (if Keep(rs[|rs| - 1], seekable) then [rs[|rs| - 1]] else [])
  }

  function Length(r: Range): real {
    r.seekEnd - r.seekStart
  }

  // The shortest range; of several, the most recently used one.
  function Shortest(rs: seq<Range>): (k: nat)
    requires |rs| > 0
    ensures k < |rs|
  {
    if |rs| == 1 then 0
    else
      var k := Shortest(rs[1..]) + 1;
      if Length(rs[0]) < Length(rs[k]) then 0 else k
  }

  lemma {:induction false} ShortestIsLeast(rs: seq<Range>, i: nat)
    requires i < |rs|
    ensures var r, s := rs[Shortest(rs)], rs[i];
            && r.seekEnd - r.seekStart <= s.seekEnd - s.seekStart
            && (i > Shortest(rs) ==> r.seekEnd - r.seekStart < s.seekEnd - s.seekStart)
  {
    if i > 0 {
      ShortestIsLeast(rs[1..], i - 1);
    } else if |rs| > 1 {
      ShortestIsLeast(rs[1..], 0);
    }
  }

  function Evict(rs: seq<Range>, limit: nat): seq<Range>
    decreases |rs|
  {
    if |rs| <= limit then rs else Evict(RemoveAt(rs, Shortest(rs)), limit)
  }

  // free_empty_cached_ranges(): the current range is the last one, and stays.
  function FreeEmpty(rs: seq<Range>, seekable: bool): seq<Range>
    requires |rs| > 0
  {
    var last := |rs| - 1;
    Evict(Kept(rs[..last], seekable), MAX_SEEK_RANGES - 1) + [rs[last]]
  }

  // Survivors in order: s is r with some elements left out.
  ghost predicate Subsequence<T>(s: seq<T>, r: seq<T>)
    decreases |r|
  {
    if |r| == 0 then |s| == 0
    else if |s| > 0 && s[|s| - 1] == r[|r| - 1] && Subsequence(s[..|s| - 1], r[..|r| - 1]) then true
    else Subsequence(s, r[..|r| - 1])
  }

  lemma {:induction false} SubsequenceRefl<T>(s: seq<T>)
    ensures Subsequence(s, s)
    decreases |s|
  {
    if |s| > 0 {
      SubsequenceRefl(s[..|s| - 1]);
    }
  }

  lemma {:induction false} SubsequenceTrans<T>(a: seq<T>, b: seq<T>, c: seq<T>)
    requires Subsequence(a, b) && Subsequence(b, c)
    ensures Subsequence(a, c)
    decreases |c|
  {
    if |c| > 0 && |b| > 0 {
      if b[|b| - 1] == c[|c| - 1] && Subsequence(b[..|b| - 1], c[..|c| - 1]) {
        if |a| > 0 && a[|a| - 1] == b[|b| - 1] && Subsequence(a[..|a| - 1], b[..|b| - 1]) {
          SubsequenceTrans(a[..|a| - 1], b[..|b| - 1], c[..|c| - 1]);
        } else {
          SubsequenceTrans(a, b[..|b| - 1], c[..|c| - 1]);
        }
      } else {
        SubsequenceTrans(a, b, c[..|c| - 1]);
      }
    } else if |c| > 0 {
      SubsequenceTrans(a, b, c[..|c| - 1]);
    }
  }

  lemma {:induction false} RemovedIsSubsequence<T>(s: seq<T>, n: nat)
    requires n < |s|
    ensures Subsequence(RemoveAt(s, n), s)
    decreases |s|
  {
    var r, last := RemoveAt(s, n), |s| - 1;
    if n == last {
      assert r == s[..last];
      SubsequenceRefl(r);
    } else {
      RemovedIsSubsequence(s[..last], n);
      assert r[..|r| - 1] == RemoveAt(s[..last], n);
    }
  }

  lemma {:induction false} SubsequenceMembers<T>(s: seq<T>, r: seq<T>)
    requires Subsequence(s, r)
    ensures |s| <= |r| && forall x :: x in s ==> x in r
    decreases |r|
  {
    if |r| > 0 {
      if |s| > 0 && s[|s| - 1] == r[|r| - 1] && Subsequence(s[..|s| - 1], r[..|r| - 1]) {
        SubsequenceMembers(s[..|s| - 1], r[..|r| - 1]);
        assert s == s[..|s| - 1] + [s[|s| - 1]];
      } else {
        SubsequenceMembers(s, r[..|r| - 1]);
      }
    }
  }

  lemma {:induction false} KeptInOrder(rs: seq<Range>, seekable: bool)
    ensures Subsequence(Kept(rs, seekable), rs)
    decreases |rs|
  {
    hide Keep;
    if |rs| > 0 {
      var last := |rs| - 1;
      var k := Kept(rs[..last], seekable);
      KeptInOrder(rs[..last], seekable);
      var r := Kept(rs, seekable);
      if Keep(rs[last], seekable) {
        assert r == k + [rs[last]] && r[..|r| - 1] == k;
      } else {
        assert r == k;
      }
    }
  }

  lemma {:induction false} KeptIsSubsequence(rs: seq<Range>, seekable: bool)
    ensures Subsequence(Kept(rs, seekable), rs)
    ensures forall r :: r in Kept(rs, seekable) <==> r in rs && Keep(r, seekable)
    decreases |rs|
  {
    hide Keep, Subsequence;
    KeptInOrder(rs, seekable);
    if |rs| > 0 {
      var last := |rs| - 1;
      KeptIsSubsequence(rs[..last], seekable);
      assert rs == rs[..last] + [rs[last]];
    }
  }

  // Every evicted range was no longer than any that is left.
  lemma {:induction false} EvictedWereShortest(rs: seq<Range>, limit: nat)
    ensures var e := Evict(rs, limit);
            && Subsequence(e, rs)
            && |e| == (if |rs| <= limit then |rs| else limit)
            && forall r, s :: r in rs && r !in e && s in e ==> r.seekEnd - r.seekStart <= s.seekEnd - s.seekStart
    decreases |rs|
  {
    if |rs| <= limit {
      SubsequenceRefl(rs);
    } else {
      var rest := RemoveAt(rs, Shortest(rs));
      EvictedWereShortest(rest, limit);
      RemovedIsSubsequence(rs, Shortest(rs));
      hide Subsequence, Evict;
      EvictedOne(rs, Evict(rest, limit));
    }
  }

  // Evicting the shortest range first, and then others.
  lemma EvictedOne(rs: seq<Range>, e: seq<Range>)
    requires |rs| > 0
    requires var rest := RemoveAt(rs, Shortest(rs));
             && Subsequence(rest, rs) && Subsequence(e, rest)
             && forall r, s :: r in rest && r !in e && s in e ==> r.seekEnd - r.seekStart <= s.seekEnd - s.seekStart
    ensures Subsequence(e, rs)
    ensures forall r, s :: r in rs && r !in e && s in e ==> r.seekEnd - r.seekStart <= s.seekEnd - s.seekStart
  {
    hide Subsequence, Shortest;
    var k := Shortest(rs);
    var rest := RemoveAt(rs, k);
    SubsequenceTrans(e, rest, rs);
    SubsequenceMembers(e, rest);
    SubsequenceMembers(rest, rs);
    forall r, s | r in rs && r !in e && s in e
      ensures r.seekEnd - r.seekStart <= s.seekEnd - s.seekStart
    {
      if r !in rest {
        RemovedIsOne(rs, k, r);
        var i :| 0 <= i < |rs| && rs[i] == s;
        ShortestIsLeast(rs, i);
      }
    }
  }

  lemma RemovedIsOne<T>(s: seq<T>, n: nat, x: T)
    requires n < |s| && x in s && x !in RemoveAt(s, n)
    ensures x == s[n]
  {
    assert s == s[..n] + [s[n]] + s[n + 1..];
  }

  // What eviction leaves: at most MAX_SEEK_RANGES ranges in the same order of
  // use, the current one last. It only drops what cannot be seeked to, and, if
  // that is not enough, the shortest ranges.
  lemma EvictionOutcome(rs: seq<Range>, seekable: bool)
    requires |rs| > 0
    ensures var e := FreeEmpty(rs, seekable);
            var others := rs[..|rs| - 1];
            && 0 < |e| <= MAX_SEEK_RANGES && e[|e| - 1] == rs[|rs| - 1]
            && var left := e[..|e| - 1];
            && Subsequence(left, others)
            && (forall r :: r in left ==> r.seekStart != NOPTS && seekable)
            && (forall r, s :: r in others && r.seekStart != NOPTS && seekable && r !in left && s in left ==> r.seekEnd - r.seekStart <= s.seekEnd - s.seekStart)
            && (forall r :: r in others && r.seekStart != NOPTS && seekable && r !in left ==> |e| == MAX_SEEK_RANGES)
  {
    var others := rs[..|rs| - 1];
    var left := Evict(Kept(others, seekable), MAX_SEEK_RANGES - 1);
    assert FreeEmpty(rs, seekable)[..|left|] == left;
    KeptAndEvicted(others, seekable);
  }

  lemma KeptAndEvicted(rs: seq<Range>, seekable: bool)
    ensures var k := Kept(rs, seekable);
            var left := Evict(k, MAX_SEEK_RANGES - 1);
            && |left| <= MAX_SEEK_RANGES - 1
            && Subsequence(left, rs)
            && (forall r :: r in left ==> r.seekStart != NOPTS && seekable)
            && (forall r, s :: r in rs && r.seekStart != NOPTS && seekable && r !in left && s in left ==> r.seekEnd - r.seekStart <= s.seekEnd - s.seekStart)
            && (forall r :: r in rs && r.seekStart != NOPTS && seekable && r !in left ==> |left| == MAX_SEEK_RANGES - 1)
  {
    var k := Kept(rs, seekable);
    var left := Evict(k, MAX_SEEK_RANGES - 1);
    KeptIsSubsequence(rs, seekable);
    EvictedWereShortest(k, MAX_SEEK_RANGES - 1);
    SubsequenceTrans(left, k, rs);
    SubsequenceMembers(left, k);
  }
}
