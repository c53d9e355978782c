// Packet queues: the cached packets of one stream in one range, with the state
// that is maintained redundantly beside the packet list.
//
// Here a queue is a value. Packets carry consecutive numbers, counted over the
// lifetime of the queue; a pointer to a packet is its number. `base` is the
// number of the head packet.

module Queues {
  import opened Timestamps
  import opened Wrappers
  import opened Packets
  import opened RingIndex
  import opened SeekTarget

  datatype Queue = Queue(
    pkts: seq<Packet>,
    cum: seq<nat>,              // cum_pos of each packet
    tailCum: nat,
    base: nat,
    correctDts: bool, correctPos: bool,
    lastPos: int, lastDts: real,
    kfLatest: Option<nat>, kfFirst: Option<nat>,
    seekStart: real, seekEnd: real, lastPruned: real,
    isBof: bool, isEof: bool,
    index: seq<IndexEntry<nat>>, indexSize: nat)
  {
    predicate Has(ptr: nat) {
      base <= ptr < base + |pkts|
    }

    function End(): nat { base + |pkts| }
  }

  // --- What redundant state has to agree with ---

  function SizeSum(s: seq<Packet>): nat {
    if |s| == 0 then 0 else s[0].size + SizeSum(s[1..])
  }

  function NextCum(q: Queue, i: nat): nat
    requires |q.cum| == |q.pkts|
  {
    if i + 1 < |q.pkts| then q.cum[i + 1] else q.tailCum
  }

  ghost predicate CumOk(q: Queue) {
    && |q.cum| == |q.pkts|
    && forall i :: 0 <= i < |q.pkts| ==> NextCum(q, i) == q.cum[i] + q.pkts[i].size
  }

  ghost predicate AllBelow(es: seq<IndexEntry<nat>>, ptr: nat) {
    forall i :: 0 <= i < |es| ==> es[i].pkt < ptr
  }

  ghost predicate KeyframesOk(q: Queue) {
    && (q.kfLatest.Some? ==>
          && q.Has(q.kfLatest.value) && q.pkts[q.kfLatest.value - q.base].keyframe
          && AllBelow(q.index, q.kfLatest.value))
    && (q.kfFirst.Some? ==>
          && q.Has(q.kfFirst.value)
          && NextKeyframe(q.pkts, 0) == q.kfFirst.value - q.base)
  }

  ghost predicate QIndexOk(q: Queue) {
    IndexOk(q.pkts, q.base, q.index) && SizeOk(|q.index|, q.indexSize)
  }

  // check_queue_consistency() for one queue. The index check there walks the
  // list once and expects to meet all entries in order.
  ghost predicate Consistent(q: Queue) {
    CumOk(q) && KeyframesOk(q) && QIndexOk(q)
  }

  // A set seek_start is backed by a keyframe that is still there.
  ghost predicate StartOk(q: Queue, preroll: real) {
    q.seekStart != NOPTS ==>
      exists k: nat :: Candidate(q.pkts, k) && RunMin(q.pkts, k) <= q.seekStart - preroll
  }

  // --- Byte counters ---

  function PacketBytes(q: Queue): int {
    if |q.pkts| > 0 && |q.cum| > 0 then q.tailCum - q.cum[0] else 0
  }

  function QueueBytes(q: Queue): int {
    PacketBytes(q) + q.indexSize * ENTRY_BYTES
  }

  // get_foward_buffered_bytes()
  function ForwardBytes(q: Queue, readerHead: Option<nat>): int {
    if readerHead.Some? && q.base <= readerHead.value < q.base + |q.cum|
    then q.tailCum - q.cum[readerHead.value - q.base] else 0
  }

  // The difference of two cumulative positions is the sum of the sizes of the
  // packets between them.
  lemma {:induction false} CumIsSum(q: Queue, i: nat)
    requires CumOk(q) && i < |q.pkts|
    ensures q.tailCum == q.cum[i] + SizeSum(q.pkts[i..])
    decreases |q.pkts| - i
  {
    assert NextCum(q, i) == q.cum[i] + q.pkts[i].size;
    assert q.pkts[i..][1..] == q.pkts[i + 1..];
    if i + 1 < |q.pkts| {
      CumIsSum(q, i + 1);
    }
  }

  lemma BytesAreSizes(q: Queue)
    requires CumOk(q)
    ensures PacketBytes(q) == SizeSum(q.pkts)
  {
    if |q.pkts| > 0 {
      CumIsSum(q, 0);
      assert q.pkts[0..] == q.pkts;
    }
  }

  lemma ForwardBytesAreSizes(q: Queue, ptr: nat)
    requires CumOk(q) && q.Has(ptr)
    ensures ForwardBytes(q, Some(ptr)) == SizeSum(q.pkts[ptr - q.base..])
    ensures 0 <= ForwardBytes(q, Some(ptr)) <= PacketBytes(q)
  {
    var i := ptr - q.base;
    CumIsSum(q, i);
    assert ForwardBytes(q, Some(ptr)) == SizeSum(q.pkts[i..]);
    BytesAreSizes(q);
    SizeSumSplit(q.pkts, i);
  }

  lemma {:induction false} SizeSumSplit(s: seq<Packet>, i: nat)
    requires i <= |s|
    ensures SizeSum(s) == SizeSum(s[..i]) + SizeSum(s[i..])
    decreases i
  {
    if i == 0 {
      assert s[0..] == s;
    } else {
      SizeSumSplit(s[1..], i - 1);
      assert s[..i][1..] == s[1..][..i - 1];
      assert s[1..][i - 1..] == s[i..];
    }
  }

  // --- Primitive operations ---

  // add_missing_streams()
  function NewQueue(): Queue {
    Queue([], [], 0, 0, true, true, -1, NOPTS, None, None, NOPTS, NOPTS, NOPTS, false, false, [], 0)
  }

  // remove_head_packet(); the bytes it takes off total_bytes are HeadBytes.
  function RemoveHead(q: Queue): Queue
    requires |q.pkts| > 0 && |q.cum| == |q.pkts|
  {
    q.(pkts := q.pkts[1..], cum := q.cum[1..], base := q.base + 1,
       kfFirst := if q.kfFirst == Some(q.base) then None else q.kfFirst,
       kfLatest := if q.kfLatest == Some(q.base) then None else q.kfLatest,
       isBof := false,
       index := DropIfFirst(q.index, q.base))
  }

  function HeadBytes(q: Queue): int
    requires |q.pkts| > 0 && |q.cum| == |q.pkts|
  {
    NextCum(q, 0) - q.cum[0]
  }

  // clear_queue(); takes QueueBytes off total_bytes.
  function Clear(q: Queue): Queue {
    q.(pkts := [], cum := [], base := q.base + |q.pkts|,
       correctDts := true, correctPos := true, lastPos := -1, lastDts := NOPTS,
       kfLatest := None, kfFirst := None,
       seekStart := NOPTS, seekEnd := NOPTS, lastPruned := NOPTS,
       isBof := false, isEof := false, index := [], indexSize := 0)
  }

  // The list part of add_packet_locked().
  function Append(q: Queue, p: Packet): Queue {
    q.(pkts := q.pkts + [p], cum := q.cum + [q.tailCum], tailCum := q.tailCum + p.size,
       correctPos := q.correctPos && p.pos >= 0 && p.pos > q.lastPos,
       correctDts := q.correctDts && p.dts != NOPTS && p.dts > q.lastDts,
       lastPos := p.pos, lastDts := p.dts)
  }

  // add_index_entry()
  function Index(q: Queue, e: IndexEntry<nat>): Queue {
    q.(index := AddEntry(q.index, e), indexSize := SizeAfterAdd(q.index, q.indexSize, e))
  }

  // The entries of a queue after its packets were renumbered.
  function Renumber(es: seq<IndexEntry<nat>>, from: nat, to: nat): (r: seq<IndexEntry<nat>>)
    ensures |r| == |es|
  {
    seq(|es|, i requires 0 <= i < |es| =>
      IndexEntry(es[i].pts, if es[i].pkt >= from then es[i].pkt - from + to else to))
  }

  // Linking q2's list to the end of q1's. The positions of its packets go on from
  // there.
  function Link(q1: Queue, q2: Queue): Queue {
    q1.(pkts := q1.pkts + q2.pkts,
        cum := q1.cum + Recounted(q2.cum, q1.tailCum),
        tailCum := q1.tailCum + (if PacketBytes(q2) >= 0 then PacketBytes(q2) else 0),
        seekEnd := q2.seekEnd,
        correctDts := q1.correctDts && q2.correctDts,
        correctPos := q1.correctPos && q2.correctPos,
        lastPos := q2.lastPos, lastDts := q2.lastDts,
        kfLatest := if q2.kfLatest.Some? && q2.kfLatest.value >= q2.base
                    then Some(q2.kfLatest.value - q2.base + q1.End()) else None,
        isEof := q2.isEof)
  }

  function Recounted(cum: seq<nat>, start: nat): (r: seq<nat>)
    ensures |r| == |cum|
  {
    seq(|cum|, i requires 0 <= i < |cum| => if cum[i] >= cum[0] then cum[i] - cum[0] + start else start)
  }

  // What joining makes of the first queue.
  function Join(q1: Queue, q2: Queue): Queue {
    var es := Renumber(q2.index, q2.base, q1.End());
    Link(q1, q2).(index := AddEntries(q1.index, es), indexSize := SizeAfterEntries(q1.index, q1.indexSize, es))
  }

  // --- Every primitive operation keeps the queue consistent ---

  lemma CumBounds(q: Queue, i: nat)
    requires CumOk(q) && i < |q.pkts|
    ensures q.cum[0] <= q.cum[i] <= q.tailCum
  {
    CumIsSum(q, 0);
    CumIsSum(q, i);
    assert q.pkts[0..] == q.pkts;
    SizeSumSplit(q.pkts, i);
  }

  lemma RemoveHeadCum(q: Queue)
    requires CumOk(q) && |q.pkts| > 0
    ensures CumOk(RemoveHead(q))
    ensures PacketBytes(RemoveHead(q)) == PacketBytes(q) - HeadBytes(q)
    ensures HeadBytes(q) == q.pkts[0].size
  {
    var r := RemoveHead(q);
    assert NextCum(q, 0) == q.cum[0] + q.pkts[0].size;
    forall i | 0 <= i < |r.pkts|
      ensures NextCum(r, i) == r.cum[i] + r.pkts[i].size
    {
      assert NextCum(q, i + 1) == q.cum[i + 1] + q.pkts[i + 1].size;
    }
  }

  lemma RemoveHeadKeyframes(q: Queue)
    requires KeyframesOk(q) && IndexOk(q.pkts, q.base, q.index) && |q.pkts| > 0 && |q.cum| == |q.pkts|
    ensures KeyframesOk(RemoveHead(q))
  {
    var r := RemoveHead(q);
    if r.kfFirst.Some? {
      NextKeyframeUnique(r.pkts, 0, q.kfFirst.value - q.base - 1);
    }
  }

  lemma RemoveHeadConsistent(q: Queue)
    requires Consistent(q) && |q.pkts| > 0
    ensures Consistent(RemoveHead(q))
    ensures QueueBytes(RemoveHead(q)) == QueueBytes(q) - HeadBytes(q)
    ensures HeadBytes(q) == q.pkts[0].size
  {
    RemoveHeadCum(q);
    RemoveHeadKeyframes(q);
    RemoveHeadIndex(q);
  }

  lemma CandidateAfterDrop(s: seq<Packet>, k: nat, i: nat)
    requires k <= i < |s|
    ensures Candidate(s[k..], i - k) == Candidate(s, i)
    ensures RunMin(s[k..], i - k) == RunMin(s, i)
  {
    RunAfterDrop(s, k, i);
  }

  lemma CandidateAfterAppend(s: seq<Packet>, t: seq<Packet>, i: nat)
    requires Candidate(s, i)
    ensures Candidate(s + t, i) && RunMin(s + t, i) <= RunMin(s, i)
  {
    RunAfterAppend(s, t, i);
  }

  lemma RemoveHeadIndex(q: Queue)
    requires QIndexOk(q) && |q.pkts| > 0 && |q.cum| == |q.pkts|
    ensures QIndexOk(RemoveHead(q))
  {
    var r := RemoveHead(q);
    if |q.index| > 0 {
      DropKeepsSpaced(q.index);
    }
    forall i | 0 <= i < |r.index|
      ensures EntryOk(r.pkts, r.base, r.index[i])
    {
      assert EntryOk(q.pkts, q.base, q.index[0]) && r.index[i] in q.index && r.index[i].pkt > q.base;
      CandidateAfterDrop(q.pkts, 1, r.index[i].pkt - q.base);
    }
  }

  lemma ClearConsistent(q: Queue)
    ensures Consistent(Clear(q)) && QueueBytes(Clear(q)) == 0
    ensures forall preroll :: StartOk(Clear(q), preroll)
  {
  }

  lemma AppendCum(q: Queue, p: Packet)
    requires CumOk(q)
    ensures CumOk(Append(q, p))
    ensures PacketBytes(Append(q, p)) == PacketBytes(q) + p.size
  {
    var r := Append(q, p);
    forall i | 0 <= i < |r.pkts|
      ensures NextCum(r, i) == r.cum[i] + r.pkts[i].size
    {
      if i < |q.pkts| {
        assert NextCum(q, i) == q.cum[i] + q.pkts[i].size;
      }
    }
  }

  // The index stays valid when packets are added behind it.
  lemma IndexOkAfterAppend(s: seq<Packet>, t: seq<Packet>, base: nat, es: seq<IndexEntry<nat>>)
    requires IndexOk(s, base, es)
    ensures IndexOk(s + t, base, es)
  {
    forall i | 0 <= i < |es|
      ensures EntryOk(s + t, base, es[i])
    {
      assert EntryOk(s, base, es[i]);
      CandidateAfterAppend(s, t, es[i].pkt - base);
    }
  }

  lemma FirstKeyframeAfterAppend(s: seq<Packet>, t: seq<Packet>)
    requires NextKeyframe(s, 0) < |s|
    ensures NextKeyframe(s + t, 0) == NextKeyframe(s, 0)
  {
    NextKeyframeUnique(s + t, 0, NextKeyframe(s, 0));
  }

  lemma AppendConsistent(q: Queue, p: Packet)
    requires Consistent(q)
    ensures Consistent(Append(q, p))
    ensures QueueBytes(Append(q, p)) == QueueBytes(q) + p.size
  {
    AppendCum(q, p);
    IndexOkAfterAppend(q.pkts, [p], q.base, q.index);
    if q.kfFirst.Some? {
      FirstKeyframeAfterAppend(q.pkts, [p]);
    }
  }

  lemma AppendStart(q: Queue, p: Packet, preroll: real)
    requires StartOk(q, preroll)
    ensures StartOk(Append(q, p), preroll)
  {
    if q.seekStart != NOPTS {
      var k: nat :| Candidate(q.pkts, k) && RunMin(q.pkts, k) <= q.seekStart - preroll;
      CandidateAfterAppend(q.pkts, [p], k);
    }
  }

  // Adding an index entry for a keyframe after all indexed ones.
  lemma AddEntryOk(s: seq<Packet>, base: nat, es: seq<IndexEntry<nat>>, e: IndexEntry<nat>)
    requires IndexOk(s, base, es) && EntryOk(s, base, e)
    requires AllBelow(es, e.pkt)
    ensures IndexOk(s, base, AddEntry(es, e))
  {
    AddKeepsSpaced(es, e);
  }

  lemma {:induction false} AddEntriesOk(s: seq<Packet>, base: nat, es: seq<IndexEntry<nat>>, news: seq<IndexEntry<nat>>)
    requires IndexOk(s, base, es) && IndexOk(s, base, news)
    requires |news| > 0 ==> AllBelow(es, news[0].pkt)
    ensures IndexOk(s, base, AddEntries(es, news))
    decreases |news|
  {
    if |news| > 0 {
      var es' := AddEntry(es, news[0]);
      AddEntryOk(s, base, es, news[0]);
      RestOfIndex(s, base, news);
      assert |news| > 1 ==> news[0].pkt < news[1].pkt;
      AddEntriesOk(s, base, es', news[1..]);
    }
  }

  lemma RestOfIndex(s: seq<Packet>, base: nat, es: seq<IndexEntry<nat>>)
    requires IndexOk(s, base, es) && |es| > 0
    ensures IndexOk(s, base, es[1..])
  {
    DropKeepsSpaced(es);
  }

  lemma {:induction false} AddEntriesBelow(es: seq<IndexEntry<nat>>, news: seq<IndexEntry<nat>>, ptr: nat)
    requires AllBelow(es, ptr) && AllBelow(news, ptr)
    ensures AllBelow(AddEntries(es, news), ptr)
    decreases |news|
  {
    if |news| > 0 {
      AddEntriesBelow(AddEntry(es, news[0]), news[1..], ptr);
    }
  }

  lemma IndexConsistent(q: Queue, e: IndexEntry<nat>)
    requires QIndexOk(q) && EntryOk(q.pkts, q.base, e)
    requires AllBelow(q.index, e.pkt)
    ensures QIndexOk(Index(q, e))
  {
    AddEntryOk(q.pkts, q.base, q.index, e);
    AddKeepsSize(q.index, q.indexSize, e);
  }

  lemma LinkCum(q1: Queue, q2: Queue)
    requires CumOk(q1) && CumOk(q2)
    ensures CumOk(Link(q1, q2))
    ensures PacketBytes(Link(q1, q2)) == PacketBytes(q1) + PacketBytes(q2)
  {
    var r := Link(q1, q2);
    BytesAreSizes(q1);
    BytesAreSizes(q2);
    forall i | 0 <= i < |q2.pkts|
      ensures q2.cum[0] <= q2.cum[i] <= q2.tailCum
    {
      CumBounds(q2, i);
    }
    forall i | 0 <= i < |r.pkts|
      ensures NextCum(r, i) == r.cum[i] + r.pkts[i].size
    {
      if i < |q1.pkts| {
        assert NextCum(q1, i) == q1.cum[i] + q1.pkts[i].size;
      } else {
        assert NextCum(q2, i - |q1.pkts|) == q2.cum[i - |q1.pkts|] + q2.pkts[i - |q1.pkts|].size;
      }
    }
  }

  // The second index, renumbered, is an index of the joined list.
  lemma RenumberedIndex(s: seq<Packet>, t: seq<Packet>, base: nat, base2: nat, es: seq<IndexEntry<nat>>)
    requires IndexOk(t, base2, es)
    ensures IndexOk(s + t, base, Renumber(es, base2, base + |s|))
  {
    var r := Renumber(es, base2, base + |s|);
    forall i | 0 <= i < |r|
      ensures EntryOk(s + t, base, r[i]) && r[i].pkt == es[i].pkt - base2 + base + |s|
    {
      assert EntryOk(t, base2, es[i]);
      RunInSecond(s, t, es[i].pkt - base2);
    }
    forall i | 0 <= i < |r| - 1
      ensures r[i + 1].pts - r[i].pts >= INDEX_STEP_SIZE
    {
      assert es[i + 1].pts - es[i].pts >= INDEX_STEP_SIZE;
    }
  }

  lemma JoinIndex(q1: Queue, q2: Queue)
    requires QIndexOk(q1) && QIndexOk(q2)
    ensures QIndexOk(Join(q1, q2))
  {
    var es := Renumber(q2.index, q2.base, q1.End());
    IndexOkAfterAppend(q1.pkts, q2.pkts, q1.base, q1.index);
    RenumberedIndex(q1.pkts, q2.pkts, q1.base, q2.base, q2.index);
    IndexBelowEnd(q1.pkts, q1.base, q1.index, q1.End());
    AddEntriesOk(q1.pkts + q2.pkts, q1.base, q1.index, es);
    AddEntriesKeepsSize(q1.index, q1.indexSize, es);
  }

  lemma IndexBelowEnd(s: seq<Packet>, base: nat, es: seq<IndexEntry<nat>>, ptr: nat)
    requires IndexOk(s, base, es) && base + |s| <= ptr
    ensures AllBelow(es, ptr)
  {
    forall i | 0 <= i < |es|
      ensures es[i].pkt < ptr
    {
      assert EntryOk(s, base, es[i]);
    }
  }

  lemma JoinFields(q1: Queue, q2: Queue)
    ensures var r := Join(q1, q2);
            && r.pkts == q1.pkts + q2.pkts && r.base == q1.base
            && r.kfFirst == q1.kfFirst
            && r.kfLatest == (if q2.kfLatest.Some? && q2.kfLatest.value >= q2.base
                              then Some(q2.kfLatest.value - q2.base + q1.End()) else None)
            && r.index == AddEntries(q1.index, Renumber(q2.index, q2.base, q1.End()))
  {
    hide AddEntries, SizeAfterEntries, Renumber, Recounted;
  }

  // The index of the joined queue ends before its latest keyframe.
  lemma JoinedIndexBelow(q1: Queue, q2: Queue)
    requires IndexOk(q1.pkts, q1.base, q1.index) && IndexOk(q2.pkts, q2.base, q2.index)
    requires q2.kfLatest.Some? && q2.kfLatest.value >= q2.base && AllBelow(q2.index, q2.kfLatest.value)
    ensures AllBelow(Join(q1, q2).index, q2.kfLatest.value - q2.base + q1.End())
  {
    JoinFields(q1, q2);
    hide Join;
    var es, ptr := Renumber(q2.index, q2.base, q1.End()), q2.kfLatest.value - q2.base + q1.End();
    IndexBelowEnd(q1.pkts, q1.base, q1.index, ptr);
    IndexFromBase(q2.pkts, q2.base, q2.index);
    RenumberedBelow(q2.index, q2.base, q1.End(), q2.kfLatest.value);
    hide AllBelow, Renumber, IndexOk;
    AddEntriesBelow(q1.index, es, ptr);
  }

  ghost predicate AllFrom(es: seq<IndexEntry<nat>>, ptr: nat) {
    forall i :: 0 <= i < |es| ==> ptr <= es[i].pkt
  }

  lemma IndexFromBase(s: seq<Packet>, base: nat, es: seq<IndexEntry<nat>>)
    requires IndexOk(s, base, es)
    ensures AllFrom(es, base)
  {
    forall i | 0 <= i < |es|
      ensures base <= es[i].pkt
    {
      assert EntryOk(s, base, es[i]);
    }
  }

  lemma RenumberedBelow(es: seq<IndexEntry<nat>>, from: nat, to: nat, ptr: nat)
    requires AllBelow(es, ptr) && AllFrom(es, from) && ptr >= from
    ensures AllBelow(Renumber(es, from, to), ptr - from + to)
  {
  }

  lemma JoinKeyframes(q1: Queue, q2: Queue)
    requires KeyframesOk(q1) && KeyframesOk(q2) && IndexOk(q1.pkts, q1.base, q1.index)
    requires IndexOk(q2.pkts, q2.base, q2.index)
    ensures KeyframesOk(Join(q1, q2))
  {
    JoinFields(q1, q2);
    hide Join, IndexOk;
    if q1.kfFirst.Some? {
      FirstKeyframeAfterAppend(q1.pkts, q2.pkts);
    }
    if q2.kfLatest.Some? {
      JoinedIndexBelow(q1, q2);
    }
  }

  lemma JoinConsistent(q1: Queue, q2: Queue)
    requires Consistent(q1) && Consistent(q2)
    ensures Consistent(Join(q1, q2))
    ensures PacketBytes(Join(q1, q2)) == PacketBytes(q1) + PacketBytes(q2)
  {
    JoinIndex(q1, q2);
    JoinCum(q1, q2);
    JoinKeyframes(q1, q2);
  }

  lemma JoinCum(q1: Queue, q2: Queue)
    requires CumOk(q1) && CumOk(q2)
    ensures CumOk(Join(q1, q2))
    ensures PacketBytes(Join(q1, q2)) == PacketBytes(q1) + PacketBytes(q2)
  {
    var l, r := Link(q1, q2), Join(q1, q2);
    LinkCum(q1, q2);
    forall i | 0 <= i < |r.pkts|
      ensures NextCum(r, i) == r.cum[i] + r.pkts[i].size
    {
      assert NextCum(l, i) == l.cum[i] + l.pkts[i].size;
    }
  }

  lemma JoinStart(q1: Queue, q2: Queue, preroll: real)
    requires Consistent(q1) && Consistent(q2) && StartOk(q1, preroll)
    ensures StartOk(Join(q1, q2), preroll)
  {
    JoinConsistent(q1, q2);
    if q1.seekStart != NOPTS {
      var k: nat :| Candidate(q1.pkts, k) && RunMin(q1.pkts, k) <= q1.seekStart - preroll;
      CandidateAfterAppend(q1.pkts, q2.pkts, k);
    }
  }

  // Removing a head packet that is no keyframe leaves all runs alone.
  lemma RemoveNonKeyframeStart(q: Queue, preroll: real)
    requires |q.pkts| > 0 && |q.cum| == |q.pkts| && !q.pkts[0].keyframe && StartOk(q, preroll)
    ensures StartOk(RemoveHead(q), preroll)
  {
    if q.seekStart != NOPTS {
      var k: nat :| Candidate(q.pkts, k) && RunMin(q.pkts, k) <= q.seekStart - preroll;
      CandidateAfterDrop(q.pkts, 1, k);
      assert Candidate(q.pkts[1..], k - 1);
    }
  }
}
