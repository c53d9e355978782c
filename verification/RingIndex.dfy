// The keyframe index of a packet queue: a ring buffer whose size is a power of
// two, addressed by masking.

module RingIndex {
  import opened Wrappers

  // Keyframes closer than this to the last index entry are not indexed.
  const INDEX_STEP_SIZE: real := 1.0
  // sizeof(struct index_entry)
  const ENTRY_BYTES: nat := 16

  datatype IndexEntry<+P> = IndexEntry(pts: real, pkt: P)

  // --- The index as a plain list: what the ring stands for ---

  ghost predicate Spaced<P>(es: seq<IndexEntry<P>>) {
    forall i :: 0 <= i < |es| - 1 ==> es[i + 1].pts - es[i].pts >= INDEX_STEP_SIZE
  }

  function AddEntry<P>(es: seq<IndexEntry<P>>, e: IndexEntry<P>): seq<IndexEntry<P>> {
    if |es| > 0 && e.pts - es[|es| - 1].pts < INDEX_STEP_SIZE then es else es + [e]
  }

  // The ring is resized when an entry is really added and there is no room.
  function SizeAfterAdd<P>(es: seq<IndexEntry<P>>, size: nat, e: IndexEntry<P>): nat {
    if |AddEntry(es, e)| > |es| && |es| == size then GrownSize(size) else size
  }

  // Adding a list of entries one after the other.
  function AddEntries<P>(es: seq<IndexEntry<P>>, news: seq<IndexEntry<P>>): seq<IndexEntry<P>>
    decreases |news|
  {
    if |news| == 0 then es else AddEntries(AddEntry(es, news[0]), news[1..])
  }

  function SizeAfterEntries<P>(es: seq<IndexEntry<P>>, size: nat, news: seq<IndexEntry<P>>): nat
    decreases |news|
  {
    if |news| == 0 then size
    else SizeAfterEntries(AddEntry(es, news[0]), SizeAfterAdd(es, size, news[0]), news[1..])
  }

  function GrownSize(size: nat): nat {
    if size * 2 > 128 then size * 2 else 128
  }

  function DropIfFirst<P(==)>(es: seq<IndexEntry<P>>, pkt: P): seq<IndexEntry<P>> {
    if |es| > 0 && es[0].pkt == pkt then es[1..] else es
  }

  // Position of the last entry whose pts is at most the given one, or -1.
  function LastAtMost<P>(es: seq<IndexEntry<P>>, pts: real): (k: int)
    ensures -1 <= k < |es|
    ensures k >= 0 ==> es[k].pts <= pts
    ensures forall j :: k < j < |es| ==> es[j].pts > pts
  {
    if |es| == 0 then -1
    else if es[|es| - 1].pts <= pts then |es| - 1
    else LastAtMost(es[..|es| - 1], pts)
  }

  lemma AddKeepsSpaced<P>(es: seq<IndexEntry<P>>, e: IndexEntry<P>)
    requires Spaced(es)
    ensures Spaced(AddEntry(es, e))
  {
    var r := AddEntry(es, e);
    forall i | 0 <= i < |r| - 1
      ensures r[i + 1].pts - r[i].pts >= INDEX_STEP_SIZE
    {
      assert i < |es| - 1 ==> es[i + 1].pts - es[i].pts >= INDEX_STEP_SIZE;
    }
  }

  // An entry is only left out if it would be too close.
  lemma AddsIff<P>(es: seq<IndexEntry<P>>, e: IndexEntry<P>)
    requires Spaced(es)
    ensures AddEntry(es, e) == if Spaced(es + [e]) then es + [e] else es
  {
    var n, added := |es|, es + [e];
    assert n > 0 ==> added[n - 1] == es[n - 1] && added[n] == e;
    AddKeepsSpaced(es, e);
  }

  // Entries grow by at least the step from any entry to any later one.
  lemma {:induction false} SpacedAcross<P>(es: seq<IndexEntry<P>>, i: nat, j: nat)
    requires Spaced(es) && i < j < |es|
    ensures es[j].pts - es[i].pts >= INDEX_STEP_SIZE * (j - i) as real
    decreases j - i
  {
    if i + 1 < j {
      SpacedAcross(es, i, j - 1);
      assert es[j].pts - es[j - 1].pts >= INDEX_STEP_SIZE;
    }
  }

  // --- Masking ---

  function Pow2(k: nat): (n: nat)
    ensures n >= 1
  {
    if k == 0 then 1 else 2 * Pow2(k - 1)
  }

  ghost predicate IsPow2(n: nat) {
    exists k: nat :: n == Pow2(k)
  }

  // Bitwise conjunction.
  function BitAnd(a: nat, b: nat): nat
    decreases a
  {
    if a == 0 || b == 0 then 0
    else (if a % 2 == 1 && b % 2 == 1 then 1 else 0) + 2 * BitAnd(a / 2, b / 2)
  }

  lemma {:induction false} HalfMod(a: nat, n: nat)
    requires n >= 1
    ensures a % (2 * n) == a % 2 + 2 * ((a / 2) % n)
  {
    var q, r := (a / 2) / n, (a / 2) % n;
    assert a == a % 2 + 2 * (q * n + r);
    assert a == (2 * n) * q + (a % 2 + 2 * r);
    ModUnique(a, 2 * n, q, a % 2 + 2 * r);
  }

  lemma ModUnique(a: nat, n: nat, q: nat, r: nat)
    requires n >= 1 && r < n && a == n * q + r
    ensures a % n == r && a / n == q
  {
    var q', r' := a / n, a % n;
    assert n * (q - q') == r' - r;
    if q > q' {
      MulMono(n, q - q');
    } else if q' > q {
      MulMono(n, q' - q);
    }
  }

  lemma {:induction false} MulMono(n: nat, d: nat)
    requires d >= 1
    ensures n * d >= n
  {
  }

  // For a power-of-two size, masking an index with size - 1 is reducing it
  // modulo the size.
  lemma {:induction false} MaskIsModulo(a: nat, k: nat)
    ensures BitAnd(a, Pow2(k) - 1) == a % Pow2(k)
    decreases k
  {
    hide BitAnd;
    if k > 0 {
      MaskIsModulo(a / 2, k - 1);
      MaskOnce(a, Pow2(k - 1));
    } else {
      NoBits(a);
    }
  }

  lemma NoBits(a: nat)
    ensures BitAnd(a, 0) == 0 == a % 1
  {
  }

  lemma MaskOnce(a: nat, n: nat)
    requires n >= 1 && BitAnd(a / 2, n - 1) == a / 2 % n
    ensures BitAnd(a, 2 * n - 1) == a % (2 * n)
  {
    hide BitAnd;
    MaskStep(a, n);
    HalfMod(a, n);
  }

  lemma MaskStep(a: nat, n: nat)
    requires n >= 1
    ensures BitAnd(a, 2 * n - 1) == a % 2 + 2 * BitAnd(a / 2, n - 1)
  {
    assert (2 * n - 1) / 2 == n - 1 && (2 * n - 1) % 2 == 1;
  }

  lemma MaskOf(a: nat, size: nat)
    requires IsPow2(size)
    ensures BitAnd(a, size - 1) == a % size
  {
    var k: nat :| size == Pow2(k);
    MaskIsModulo(a, k);
  }

  lemma GrownIsPow2(size: nat)
    requires size == 0 || IsPow2(size)
    ensures IsPow2(GrownSize(size))
  {
    assert Pow2(7) == 128;
    if size * 2 > 128 {
      var k: nat :| size == Pow2(k);
      assert Pow2(k + 1) == size * 2;
    }
  }

  // Where entry i of the list is stored, given that 0 <= i < size.
  function Slot(index0: nat, i: nat, size: nat): nat {
    if index0 + i < size then index0 + i else index0 + i - size
  }

  // QUEUE_INDEX_ENTRY masks; that addresses the slot modulo the size.
  lemma MaskIsSlot(index0: nat, i: nat, size: nat)
    requires IsPow2(size) && index0 < size && i <= size
    ensures BitAnd(index0 + i, size - 1) == (index0 + i) % size == Slot(index0, i, size)
  {
    MaskOf(index0 + i, size);
    if index0 + i < size {
      ModUnique(index0 + i, size, 0, index0 + i);
    } else {
      ModUnique(index0 + i, size, 1, index0 + i - size);
    }
  }

  ghost predicate SizeOk(n: nat, size: nat) {
    n <= size && (size == 0 || IsPow2(size))
  }

  lemma AddKeepsSize<P>(es: seq<IndexEntry<P>>, size: nat, e: IndexEntry<P>)
    requires SizeOk(|es|, size)
    ensures SizeOk(|AddEntry(es, e)|, SizeAfterAdd(es, size, e))
    ensures SizeAfterAdd(es, size, e) >= size
  {
    GrownIsPow2(size);
  }

  lemma {:induction false} AddEntriesKeepsSize<P>(es: seq<IndexEntry<P>>, size: nat, news: seq<IndexEntry<P>>)
    requires SizeOk(|es|, size)
    ensures SizeOk(|AddEntries(es, news)|, SizeAfterEntries(es, size, news))
    ensures SizeAfterEntries(es, size, news) >= size && |AddEntries(es, news)| >= |es|
    ensures var s := SizeAfterEntries(es, size, news);
            s == size || s == 128 || s < 2 * |AddEntries(es, news)|
    decreases |news|
  {
    if |news| > 0 {
      AddKeepsSize(es, size, news[0]);
      AddEntriesKeepsSize(AddEntry(es, news[0]), SizeAfterAdd(es, size, news[0]), news[1..]);
    }
  }

  // --- The ring ---

  class Ring<P(==)> {
    var index: array<IndexEntry<P>>   // its length is index_size
    var index0: nat
    var numIndex: nat

    ghost predicate Shape()
      reads this
    {
      && (index.Length == 0 || IsPow2(index.Length))
      && numIndex <= index.Length
      && (if index.Length == 0 then index0 == 0 else index0 < index.Length)
    }

    // The list the ring stands for.
    ghost function Entries(): (es: seq<IndexEntry<P>>)
      requires Shape()
      reads this, index
    {
      Unrolled(index[..], index0, numIndex)
    }

    ghost predicate Valid()
      reads this, index
    {
      Shape() && Spaced(Entries())
    }

    constructor ()
      ensures Valid() && fresh(index) && Entries() == [] && index.Length == 0
    {
      index := new IndexEntry<P>[0];
      index0, numIndex := 0, 0;
    }

    // QUEUE_INDEX_ENTRY(queue, idx)
    method Entry(idx: nat) returns (e: IndexEntry<P>)
      requires Shape() && idx < numIndex
      ensures e == Entries()[idx]
    {
      MaskIsSlot(index0, idx, index.Length);
      e := index[BitAnd(index0 + idx, index.Length - 1)];
    }

    // Doubles the array, and moves the part that had wrapped around to where
    // it continues without wrapping. Returns the bytes this adds to the cache.
    method Resize(fill: IndexEntry<P>) returns (bytes: nat)
      requires Valid() && numIndex == index.Length
      modifies this
      ensures Valid() && fresh(index) && numIndex == old(numIndex)
      ensures Entries() == old(Entries())
      ensures index.Length == GrownSize(old(index.Length))
      ensures bytes == (index.Length - old(index.Length)) * ENTRY_BYTES
    {
      ghost var was := index[..];
      var size, newSize := index.Length, GrownSize(index.Length);
      GrownIsPow2(size);
      var bigger := Reallocated(newSize, fill);
      hide Unrolled;
      CopyWrapped(bigger, index0);
      UnrolledAfterWrapCopy(was, bigger[..], index0);
      index := bigger;
      bytes := (newSize - size) * ENTRY_BYTES;
    }

    // Repeats the first n entries behind the old ones.
    method CopyWrapped(bigger: array<IndexEntry<P>>, n: nat)
      requires bigger != index && n <= index.Length && bigger.Length >= 2 * index.Length
      requires bigger[..index.Length] == index[..]
      modifies bigger
      ensures bigger[..index.Length + n] == index[..] + index[..n]
    {
      for i := 0 to n
        invariant bigger[..index.Length + i] == index[..] + index[..i]
      {
        assert bigger[i] == bigger[..index.Length + i][i] == index[i];
        bigger[index.Length + i] := bigger[i];
      }
    }

    // A larger array that begins with what the old one has.
    method Reallocated(size: nat, fill: IndexEntry<P>) returns (bigger: array<IndexEntry<P>>)
      requires index.Length <= size
      ensures fresh(bigger) && bigger.Length == size && bigger[..index.Length] == index[..]
    {
      bigger := new IndexEntry<P>[size](_ => fill);
      for n := 0 to index.Length
        invariant bigger[..n] == index[..n]
      {
        bigger[n] := index[n];
      }
    }

    method Store(e: IndexEntry<P>)
      requires Shape() && numIndex < index.Length
      modifies this`numIndex, index
      ensures Shape() && Entries() == old(Entries()) + [e]
    {
      ghost var was := index[..];
      MaskIsSlot(index0, numIndex, index.Length);
      index[BitAnd(index0 + numIndex, index.Length - 1)] := e;
      assert index[..] == was[Slot(index0, numIndex, |was|) := e];
      UnrolledAfterStore(was, index0, numIndex, e);
      numIndex := numIndex + 1;
    }

    // Appends a keyframe, unless it is too close to the
    // last one. Returns the bytes this adds to the cache.
    method Add(e: IndexEntry<P>) returns (bytes: nat)
      requires Valid()
      modifies this, index
      ensures Valid() && (index == old(index) || fresh(index))
      ensures Entries() == AddEntry(old(Entries()), e)
      ensures index.Length == SizeAfterAdd(old(Entries()), old(index.Length), e)
      ensures bytes == (index.Length - old(index.Length)) * ENTRY_BYTES
    {
      ghost var es := Entries();
      bytes := 0;
      if numIndex > 0 {
        var last := Entry(numIndex - 1);
        if e.pts - last.pts < INDEX_STEP_SIZE {
          return;
        }
      }
      AddKeepsSpaced(es, e);
      if numIndex == index.Length {
        bytes := Resize(e);
      }
      Store(e);
    }

    // Called when pkt is removed from the head of the queue.
    method RemoveHead(pkt: P)
      requires Valid()
      modifies this
      ensures Valid() && index == old(index)
      ensures Entries() == DropIfFirst(old(Entries()), pkt)
    {
      ghost var es := Entries();
      if numIndex > 0 && index[index0].pkt == pkt {
        MaskIsSlot(index0, 1, index.Length);
        index0 := BitAnd(index0 + 1, index.Length - 1);
        numIndex := numIndex - 1;
        assert Entries() == es[1..];
        DropKeepsSpaced(es);
      }
    }

    // free_index(); returns the bytes this removes from the cache.
    method Free() returns (bytes: nat)
      requires Shape()
      modifies this
      ensures Valid() && fresh(index) && index.Length == 0 && Entries() == []
      ensures bytes == old(index.Length) * ENTRY_BYTES
    {
      bytes := index.Length * ENTRY_BYTES;
      index := new IndexEntry<P>[0];
      index0, numIndex := 0, 0;
    }

    // The packet of the last entry that is not after pts.
    method Search(pts: real) returns (r: Option<P>)
      requires Valid()
      ensures var k := LastAtMost(Entries(), pts);
              r == if k < 0 then None else Some(Entries()[k].pkt)
    {
      var a, b := 0, numIndex;
      ghost var es := Entries();
      while a < b
        invariant 0 <= a <= b <= numIndex
        invariant a == b ==> numIndex == 0
        invariant a > 0 ==> es[a].pts <= pts
        invariant b < numIndex ==> es[b].pts > pts
        decreases b - a
      {
        var m := a + (b - a) / 2;
        var e := Entry(m);
        var ok := e.pts <= pts;
        if a + 1 == b {
          SearchIsLast(es, pts, a, ok);
          return if ok then Some(e.pkt) else None;
        }
        if ok {
          a := m;
        } else {
          b := m;
        }
      }
      return None;
    }
  }

  // The entries of a ring with the given array contents.
  ghost function Unrolled<P>(a: seq<IndexEntry<P>>, index0: nat, n: nat): (es: seq<IndexEntry<P>>)
    requires n <= |a| && (|a| > 0 ==> index0 < |a|)
    ensures |es| == n
    ensures forall i :: 0 <= i < n ==> es[i] == a[Slot(index0, i, |a|)]
  {
    seq(n, i requires 0 <= i < n => a[Slot(index0, i, |a|)])
  }

  lemma UnrolledAfterWrapCopy<P>(a: seq<IndexEntry<P>>, b: seq<IndexEntry<P>>, index0: nat)
    requires if |a| == 0 then index0 == 0 else index0 < |a|
    requires |b| > 0 && |b| >= 2 * |a|
    requires b[..|a| + index0] == a + a[..index0]
    ensures Unrolled(b, index0, |a|) == Unrolled(a, index0, |a|)
  {
    forall i | 0 <= i < |a|
      ensures b[Slot(index0, i, |b|)] == a[Slot(index0, i, |a|)]
    {
      assert b[index0 + i] == b[..|a| + index0][index0 + i] == (a + a[..index0])[index0 + i];
    }
  }

  lemma UnrolledAfterStore<P>(a: seq<IndexEntry<P>>, index0: nat, n: nat, e: IndexEntry<P>)
    requires n < |a| && index0 < |a|
    ensures Unrolled(a[Slot(index0, n, |a|) := e], index0, n + 1) == Unrolled(a, index0, n) + [e]
  {
  }

  lemma DropKeepsSpaced<P>(es: seq<IndexEntry<P>>)
    requires Spaced(es) && |es| > 0
    ensures Spaced(es[1..])
  {
    forall i | 0 <= i < |es[1..]| - 1
      ensures es[1..][i + 1].pts - es[1..][i].pts >= INDEX_STEP_SIZE
    {
      assert es[i + 1 + 1].pts - es[i + 1].pts >= INDEX_STEP_SIZE;
    }
  }

  // When the binary search has narrowed down to one entry, that entry is the
  // last one at most pts, if there is one at all.
  lemma SearchIsLast<P>(es: seq<IndexEntry<P>>, pts: real, a: nat, ok: bool)
    requires Spaced(es) && a < |es|
    requires a > 0 ==> es[a].pts <= pts
    requires a + 1 < |es| ==> es[a + 1].pts > pts
    requires ok == (es[a].pts <= pts)
    ensures LastAtMost(es, pts) == if ok then a else -1
  {
    forall j | a + 1 < j < |es|
      ensures es[j].pts > pts
    {
      SpacedAcross(es, a + 1, j);
    }
  }
}
