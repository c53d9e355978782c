// The playlist: entries that know their place in the list, a "current" entry
// that survives its own removal, and a shuffle that can be undone.

module Playlists {
  class Entry {
    var pl: Playlist?
    var plIndex: int
    var id: nat
    // The index before the list was shuffled; -1 if not known.
    var originalIndex: int
    var removed: bool

    // (Zeroed memory: the index is 0, even though there is no list.)
    constructor ()
      ensures pl == null && plIndex == 0 && originalIndex == -1 && !removed
    {
      pl, plIndex, id, originalIndex, removed := null, 0, 0, -1, false;
    }
  }

  // --- Lists ---

  ghost predicate Distinct<T>(s: seq<T>) {
    forall i, j :: 0 <= i < j < |s| ==> s[i] != s[j]
  }

  function Without<T>(s: seq<T>, i: nat): seq<T>
    requires i < |s|
  {
    s[..i] + s[i + 1..]
  }

  function Inserted<T>(s: seq<T>, i: nat, x: T): seq<T>
    requires i <= |s|
  {
    s[..i] + [x] + s[i..]
  }

  function InsertedAll<T>(s: seq<T>, at: nat, moved: seq<T>): seq<T>
    requires at <= |s|
  {
    s[..at] + moved + s[at..]
  }

  function Swapped<T>(s: seq<T>, i: nat, j: nat): seq<T>
    requires i < |s| && j < |s|
  {
    s[i := s[j]][j := s[i]]
  }

  // Takes out the element at index from, and puts it in front of the one that
  // was at index to (or at the end).
  function Moved<T>(s: seq<T>, from: nat, to: nat): (r: seq<T>)
    requires from < |s| && to <= |s|
    ensures |r| == |s|
  {
    Inserted(Without(s, from), if from < to then to - 1 else to, s[from])
  }

  lemma WithoutIsFewer(s: seq<Entry>, i: nat)
    requires i < |s| && Distinct(s)
    ensures Distinct(Without(s, i)) && |Without(s, i)| == |s| - 1
    ensures forall x :: x in Without(s, i) ==> x in s && x != s[i]
    ensures forall x :: x in s && x != s[i] ==> x in Without(s, i)
    ensures forall n :: 0 <= n < i ==> Without(s, i)[n] == s[n]
    ensures i + 1 < |s| ==> Without(s, i)[i] == s[i + 1]
  {
    forall x | x in s && x != s[i] ensures x in Without(s, i) {
      var n :| 0 <= n < |s| && s[n] == x;
      assert Without(s, i)[if n < i then n else n - 1] == x;
    }
  }

  lemma InsertedIsMore(s: seq<Entry>, i: nat, x: Entry)
    requires i <= |s| && Distinct(s) && x !in s
    ensures Distinct(Inserted(s, i, x)) && Inserted(s, i, x)[i] == x
    ensures forall y :: y in Inserted(s, i, x) ==> y in s + [x]
    ensures forall y :: y in s + [x] ==> y in Inserted(s, i, x)
  {
    assert s == s[..i] + s[i..];
  }

  lemma MovedIsSame(s: seq<Entry>, from: nat, to: nat)
    requires from < |s| && to <= |s| && Distinct(s)
    ensures Distinct(Moved(s, from, to))
    ensures forall x :: x in Moved(s, from, to) ==> x in s
    ensures forall x :: x in s ==> x in Moved(s, from, to)
    ensures Moved(s, from, to)[if from < to then to - 1 else to] == s[from]
    ensures to < |s| && to != from ==> Moved(s, from, to)[if from < to then to else to + 1] == s[to]
  {
    WithoutIsFewer(s, from);
    InsertedIsMore(Without(s, from), if from < to then to - 1 else to, s[from]);
  }

  // Only the elements from the old to the new position have another index.
  lemma MovedElsewhere<T>(s: seq<T>, from: nat, to: nat)
    requires from < |s| && to <= |s|
    ensures forall n :: 0 <= n < |s| && ((n < from && n < to) || (n > from && n >= to)) ==> Moved(s, from, to)[n] == s[n]
  {
  }

  lemma SwappedIsSame(s: seq<Entry>, i: nat, j: nat)
    requires i < |s| && j < |s| && Distinct(s)
    ensures Distinct(Swapped(s, i, j)) && multiset(Swapped(s, i, j)) == multiset(s)
  {
  }

  lemma SameEntries(s: seq<Entry>, t: seq<Entry>)
    requires multiset(s) == multiset(t)
    ensures |s| == |t| && forall e :: e in t ==> e in s
  {
    assert |multiset(s)| == |s| && |multiset(t)| == |t|;
    forall e | e in t ensures e in s {
      assert e in multiset(t);
    }
  }

  lemma InsertedAllIsMore(s: seq<Entry>, at: nat, moved: seq<Entry>)
    requires at <= |s| && Distinct(s) && Distinct(moved) && forall e :: e in s ==> e !in moved
    ensures Distinct(InsertedAll(s, at, moved)) && |InsertedAll(s, at, moved)| == |s| + |moved|
  {
    var t := InsertedAll(s, at, moved);
    InsertedAllAt(s, at, moved);
    forall i, j | 0 <= i < j < |t| ensures t[i] != t[j] {
      var a, b := InsertedAllFrom(at, |moved|, i), InsertedAllFrom(at, |moved|, j);
      assert a >= 0 ==> s[a] in s;
      assert b >= 0 ==> s[b] in s;
    }
  }

  lemma InsertedAllHas(s: seq<Entry>, at: nat, moved: seq<Entry>, e: Entry)
    requires at <= |s| && e in s
    ensures e in InsertedAll(s, at, moved)
  {
    var n :| 0 <= n < |s| && s[n] == e;
    assert InsertedAll(s, at, moved)[if n < at then n else n + |moved|] == e;
  }

  // Where an element comes from: the list, or (negative) what was inserted.
  function InsertedAllFrom(at: nat, count: nat, n: nat): int {
    if n < at then n else if n < at + count then n - at - count else n - count
  }

  lemma InsertedAllAt(s: seq<Entry>, at: nat, moved: seq<Entry>)
    requires at <= |s|
    ensures |InsertedAll(s, at, moved)| == |s| + |moved|
    ensures forall n :: 0 <= n < |s| + |moved| ==>
              var k := InsertedAllFrom(at, |moved|, n);
              InsertedAll(s, at, moved)[n] == if k >= 0 then s[k] else moved[k + |moved|]
  {
  }

  // The elements of s that are in kept, in the order they have in s.
  ghost function Survivors<T>(s: seq<T>, kept: seq<T>): seq<T> {
    if s == [] then []
    else
      var last := s[|s| - 1];
      Survivors(s[..|s| - 1], kept) + (if last in kept then [last] else [])
  }

  // All others keep their order.
  lemma MovedOthers<T>(s: seq<T>, from: nat, to: nat)
    requires from < |s| && to <= |s|
    ensures Without(Moved(s, from, to), if from < to then to - 1 else to) == Without(s, from)
  {
    var a, b := Without(Moved(s, from, to), if from < to then to - 1 else to), Without(s, from);
    WithoutAt(s, from);
    WithoutAt(Moved(s, from, to), if from < to then to - 1 else to);
    InsertedAt(Without(s, from), if from < to then to - 1 else to, s[from]);
    hide Inserted, Without;
    forall n | 0 <= n < |s| - 1 ensures a[n] == b[n] {
    }
  }

  // The code first inserts the element once more, and then removes it.
  lemma MovedIsInsertRemove<T>(s: seq<T>, from: nat, to: nat)
    requires from < |s| && to <= |s|
    ensures |Inserted(s, to, s[from])| == |s| + 1
    ensures Without(Inserted(s, to, s[from]), if from >= to then from + 1 else from) == Moved(s, from, to)
  {
    var a, b := Without(Inserted(s, to, s[from]), if from >= to then from + 1 else from), Moved(s, from, to);
    InsertedAt(s, to, s[from]);
    WithoutAt(Inserted(s, to, s[from]), if from >= to then from + 1 else from);
    WithoutAt(s, from);
    InsertedAt(Without(s, from), if from < to then to - 1 else to, s[from]);
    hide Inserted, Without;
    forall n | 0 <= n < |s| ensures a[n] == b[n] {
    }
  }

  lemma InsertedAt<T>(s: seq<T>, i: nat, x: T)
    requires i <= |s|
    ensures |Inserted(s, i, x)| == |s| + 1
    ensures forall n :: 0 <= n <= |s| ==> Inserted(s, i, x)[n] == if n < i then s[n] else if n == i then x else s[n - 1]
  {
  }

  lemma WithoutAt<T>(s: seq<T>, i: nat)
    requires i < |s|
    ensures |Without(s, i)| == |s| - 1
    ensures forall n :: 0 <= n < |s| - 1 ==> Without(s, i)[n] == if n < i then s[n] else s[n + 1]
  {
  }

  // --- The list ---

  // No two entries have the same ID.
  ghost predicate IdsOk(s: seq<Entry>, idAlloc: nat)
    reads s`id
  {
    && (forall e :: e in s ==> 1 <= e.id <= idAlloc)
    && forall e, f :: e in s && f in s && e != f ==> e.id != f.id
  }

  lemma IdsOfFewer(s: seq<Entry>, t: seq<Entry>, idAlloc: nat)
    requires IdsOk(s, idAlloc) && forall e :: e in t ==> e in s
    ensures IdsOk(t, idAlloc)
  {
  }

  lemma IdsOfNone(idAlloc: nat)
    ensures IdsOk([], idAlloc)
  {
  }

  lemma IdsOfMore(s: seq<Entry>, at: nat, moved: seq<Entry>, idBefore: nat)
    requires at <= |s|
    requires IdsOk(s, idBefore) && forall k :: 0 <= k < |moved| ==> moved[k].id == idBefore + 1 + k
    ensures IdsOk(InsertedAll(s, at, moved), idBefore + |moved|)
  {
    hide InsertedAll;
    var t := InsertedAll(s, at, moved);
    InsertedAllAt(s, at, moved);
    forall e | e in t ensures e in s || e in moved {
      var i :| 0 <= i < |t| && t[i] == e;
      assert InsertedAllFrom(at, |moved|, i) >= -|moved|;
    }
  }

  class Playlist {
    var entries: seq<Entry>
    var current: Entry?
    var currentWasReplaced: bool
    var idAlloc: nat
    // The list as it was before it was last shuffled.
    ghost var shuffledFrom: seq<Entry>

    ghost predicate Valid()
      reads this, entries
    {
      && IndexesOk()
      && IdsOk(entries, idAlloc)
      && (current != null ==> current in entries)
    }

    // Entries point back to the list, and to their own slot in it.
    ghost predicate IndexesOk()
      reads this, entries
    {
      && (forall e :: e in entries ==> e.pl == this)
      && forall n :: 0 <= n < |entries| ==> entries[n].plIndex == n
    }

    lemma ValidIsDistinct()
      requires IndexesOk()
      ensures Distinct(entries)
    {
    }

    // All entries have been in the list since it was shuffled, and remember
    // where they were.
    ghost predicate Undoable()
      reads this, entries`originalIndex
    {
      && Distinct(shuffledFrom)
      && forall e :: e in entries ==> 0 <= e.originalIndex < |shuffledFrom| && shuffledFrom[e.originalIndex] == e
    }

    // Entries were only removed or moved.
    twostate lemma StillUndoable()
      requires old(Undoable()) && shuffledFrom == old(shuffledFrom)
      requires forall e :: e in entries ==> e in old(entries) && e.originalIndex == old(e.originalIndex)
      ensures Undoable()
    {
    }

    constructor ()
      ensures Valid() && entries == [] && current == null && !currentWasReplaced && idAlloc == 0
    {
      entries, current, currentWasReplaced, idAlloc := [], null, false, 0;
      shuffledFrom := [];
    }

    // playlist_update_indexes(): the indexes not in the given range have to be
    // right already.
    method UpdateIndexes(start: int, end: int)
      requires Distinct(entries)
      requires forall n :: 0 <= n < |entries| && !(start <= n && (end < 0 || n < end)) ==> entries[n].plIndex == n
      modifies entries`plIndex
      ensures forall n :: 0 <= n < |entries| ==> entries[n].plIndex == n
    {
      var n := if start > 0 then start else 0;
      var hi := if end < 0 || |entries| < end then |entries| else end;
      while n < hi
        invariant 0 <= n
        invariant forall k :: 0 <= k < |entries| && !(n <= k < hi) ==> entries[k].plIndex == k
      {
        entries[n].plIndex := n;
        n := n + 1;
      }
    }

    // playlist_entry_get_rel(): the entry direction steps further.
    function GetRel(e: Entry, direction: int): (r: Entry?)
      requires Valid() && e in entries
      requires direction == -1 || direction == 1
      reads this, entries
      ensures r != null ==> r in entries && r.plIndex == e.plIndex + direction
      ensures r == null ==> e.plIndex == if direction < 0 then 0 else |entries| - 1
    {
      var n := e.plIndex + direction;
      if 0 <= n < |entries| then entries[n] else null
    }

    method Add(add: Entry)
      requires Valid() && add !in entries
      modifies this`entries, this`idAlloc, add
      ensures Valid()
      ensures entries == old(entries) + [add]
      ensures add.id == idAlloc == old(idAlloc) + 1
      ensures add.originalIndex == old(add.originalIndex)
    {
      entries := entries + [add];
      add.pl := this;
      add.plIndex := |entries| - 1;
      idAlloc := idAlloc + 1;
      add.id := idAlloc;
    }

    method Remove(entry: Entry)
      requires Valid() && entry in entries
      modifies this`entries, this`current, this`currentWasReplaced
      modifies entries`plIndex, entry`pl, entry`removed
      ensures Valid()
      ensures entries == Without(old(entries), old(entry.plIndex))
      ensures old(Undoable()) ==> Undoable()
      ensures entry.pl == null && entry.plIndex == -1 && entry.removed
      ensures old(current) != entry ==> current == old(current) && currentWasReplaced == old(currentWasReplaced)
      // The one after it takes its place.
      ensures old(current) == entry ==>
                && currentWasReplaced
                && current == if old(entry.plIndex) < |entries| then entries[old(entry.plIndex)] else null
    {
      hide Without, IdsOk, Distinct, Undoable;
      ValidIsDistinct();
      WithoutIsFewer(entries, entry.plIndex);
      IdsOfFewer(entries, Without(entries, entry.plIndex), idAlloc);
      if current == entry {
        current := GetRel(entry, 1);
        currentWasReplaced := true;
      }
      entries := Without(entries, entry.plIndex);
      assert forall n :: 0 <= n < |entries| ==> entries[n] in entries;
      UpdateIndexes(entry.plIndex, -1);
      entry.pl := null;
      entry.plIndex := -1;
      entry.removed := true;
      if old(Undoable()) {
        StillUndoable();
      }
    }

    method Clear()
      requires Valid()
      modifies this`entries, this`current, this`currentWasReplaced
      modifies entries`plIndex, entries`pl, entries`removed
      ensures Valid()
      ensures entries == [] && current == null && !currentWasReplaced
      ensures forall e :: e in old(entries) ==> e.pl == null && e.plIndex == -1 && e.removed
    {
      var n := |entries| - 1;
      while n >= 0
        invariant -1 <= n == |entries| - 1
        invariant Valid()
        invariant entries == old(entries)[..n + 1]
        invariant forall k :: n < k < |old(entries)| ==>
                    old(entries)[k].pl == null && old(entries)[k].plIndex == -1 && old(entries)[k].removed
      {
        assert forall k :: 0 <= k <= n ==> entries[k] == old(entries)[k];
        Remove(entries[n]);
        n := n - 1;
      }
      assert current == null;
      currentWasReplaced := false;
    }

    // playlist_move(): the entry goes where at is, or to the end.
    method Move(entry: Entry, at: Entry?)
      requires Valid() && entry in entries
      requires at != null ==> at in entries
      modifies this`entries, entries`plIndex
      ensures Valid()
      ensures old(Undoable()) ==> Undoable()
      ensures entry == at ==> entries == old(entries)
      ensures entry != at ==>
                entries == Moved(old(entries), old(entry.plIndex), if at == null then |old(entries)| else old(at.plIndex))
      ensures at != null && at != entry ==> at.plIndex == entry.plIndex + 1
      ensures at == null ==> entry.plIndex == |entries| - 1
    {
      hide Without, Inserted, Moved, IdsOk, Distinct, Undoable;
      if entry == at {
        return;
      }
      var index := if at != null then at.plIndex else |entries|;
      ghost var from := entry.plIndex;
      ValidIsDistinct();
      MovedIsInsertRemove(entries, from, index);
      MovedIsSame(entries, from, index);
      MovedElsewhere(entries, from, index);
      IdsOfFewer(entries, Moved(entries, from, index), idAlloc);
      entries := Inserted(entries, index, entry);
      var oldIndex := entry.plIndex;
      if oldIndex >= index {
        oldIndex := oldIndex + 1;
      }
      entries := Without(entries, oldIndex);
      var a, b := index - 1, oldIndex - 1;
      var c, d := index + 1, oldIndex + 1;
      assert forall n :: 0 <= n < |entries| ==> entries[n] in entries;
      UpdateIndexes(if a < b then a else b, if c > d then c else d);
      if old(Undoable()) {
        StillUndoable();
      }
    }

    method Shuffle()
      requires Valid()
      modifies this`entries, this`shuffledFrom, entries`plIndex, entries`originalIndex
      ensures Valid()
      ensures multiset(entries) == multiset(old(entries))
      ensures shuffledFrom == old(entries) && Undoable()
    {
      hide IdsOk, Distinct;
      ValidIsDistinct();
      shuffledFrom := entries;
      RememberIndexes();
      SwapAll();
      SameEntries(shuffledFrom, entries);
      SameEntries(entries, shuffledFrom);
      IdsOfFewer(shuffledFrom, entries, idAlloc);
      assert forall n :: 0 <= n < |entries| ==> entries[n] in entries;
      UpdateIndexes(0, -1);
    }

    method RememberIndexes()
      requires Distinct(entries)
      modifies entries`originalIndex
      ensures forall n :: 0 <= n < |entries| ==> entries[n].originalIndex == n
    {
      var n := 0;
      while n < |entries|
        invariant 0 <= n <= |entries|
        invariant forall k :: 0 <= k < n ==> entries[k].originalIndex == k
      {
        entries[n].originalIndex := n;
        n := n + 1;
      }
    }

    // (Any random numbers.)
    method SwapAll()
      requires Distinct(entries)
      modifies this`entries
      ensures Distinct(entries) && multiset(entries) == multiset(old(entries))
    {
      hide Distinct, Swapped;
      var n := 0;
      while n < |entries| - 1
        invariant 0 <= n
        invariant Distinct(entries) && multiset(entries) == multiset(old(entries))
      {
        var j :| 0 <= j < |entries| - n;
        SwappedIsSame(entries, n, n + j);
        entries := Swapped(entries, n, n + j);
        n := n + 1;
      }
    }

    // playlist_unshuffle(). Sorting with a comparison that is no order is not
    // defined.
    method Unshuffle()
      requires Valid() && UnknownFirst(entries)
      modifies this`entries, entries`plIndex
      ensures Valid()
      ensures multiset(entries) == multiset(old(entries))
      ensures old(Undoable()) ==> Undoable() && entries == Survivors(shuffledFrom, old(entries))
    {
      hide IdsOk, Distinct, Sorted, Survivors;
      ValidIsDistinct();
      if entries != [] {
        entries := SortEntries();
      } else {
        NoSurvivors(shuffledFrom);
      }
      UpdateIndexes(0, -1);
    }

    method SortEntries() returns (sorted: seq<Entry>)
      requires Valid() && UnknownFirst(entries)
      ensures multiset(sorted) == multiset(entries) && Distinct(sorted) && IdsOk(sorted, idAlloc)
      ensures |sorted| == |entries| && forall n :: 0 <= n < |sorted| ==> sorted[n] in entries
      ensures forall e :: e in entries ==> e in sorted
      ensures Undoable() ==> sorted == Survivors(shuffledFrom, entries)
    {
      hide IdsOk, Distinct, Sorted, Survivors;
      ValidIsDistinct();
      assert Comparable(entries);
      sorted := Sort(entries);
      SameEntries(entries, sorted);
      SameEntries(sorted, entries);
      IdsOfFewer(entries, sorted, idAlloc);
      if Undoable() {
        SortedIsRestored(shuffledFrom, entries, sorted);
      }
    }

    // playlist_transfer_entries_to(): the ID of the first entry, or 0.
    method TransferEntriesTo(dstIndex: nat, source: Playlist) returns (first: nat)
      requires Valid() && source.Valid() && this != source && dstIndex <= |entries|
      modifies this`entries, this`idAlloc, source`entries, entries`plIndex
      modifies source.entries`pl, source.entries`plIndex, source.entries`id
      ensures Valid()
      ensures entries == InsertedAll(old(entries), dstIndex, old(source.entries))
      ensures idAlloc == old(idAlloc) + |old(source.entries)|
      ensures forall n :: 0 <= n < |old(source.entries)| ==> old(source.entries)[n].id == old(idAlloc) + 1 + n
      ensures first == if old(source.entries) == [] then 0 else old(idAlloc) + 1
      // The other list is not consistent if it was being played.
      ensures source.entries == [] && (source.Valid() <==> source.current == null)
    {
      hide IdsOk, Distinct, InsertedAll;
      source.ValidIsDistinct();
      var moved := source.entries;
      InsertAll(dstIndex, moved);
      source.entries := [];
      IdsOfNone(source.idAlloc);
      first := if |moved| > 0 then moved[0].id else 0;
    }

    method InsertAll(dstIndex: nat, moved: seq<Entry>)
      requires Valid() && dstIndex <= |entries|
      requires Distinct(moved) && forall e :: e in entries ==> e !in moved
      modifies this`entries, this`idAlloc, entries`plIndex
      modifies moved`pl, moved`plIndex, moved`id
      ensures Valid()
      ensures entries == InsertedAll(old(entries), dstIndex, moved)
      ensures idAlloc == old(idAlloc) + |moved|
      ensures forall n :: 0 <= n < |moved| ==> moved[n].id == old(idAlloc) + 1 + n
    {
      hide IdsOk, Distinct, InsertedAll;
      PlaceAll(dstIndex, moved);
      assert forall n :: 0 <= n < |entries| ==> entries[n] in entries;
      UpdateIndexes(dstIndex + |moved|, -1);
    }

    // The indexes of the entries behind them are still to be updated.
    method PlaceAll(dstIndex: nat, moved: seq<Entry>)
      requires Valid() && dstIndex <= |entries|
      requires Distinct(moved) && forall e :: e in entries ==> e !in moved
      modifies this`entries, this`idAlloc
      modifies moved`pl, moved`plIndex, moved`id
      ensures Distinct(entries) && IdsOk(entries, idAlloc) && (current != null ==> current in entries)
      ensures forall n :: 0 <= n < |entries| ==> entries[n].pl == this && (entries[n] in old(entries) || entries[n] in moved)
      ensures forall n :: 0 <= n < dstIndex + |moved| && n < |entries| ==> entries[n].plIndex == n
      ensures entries == InsertedAll(old(entries), dstIndex, moved)
      ensures idAlloc == old(idAlloc) + |moved|
      ensures forall n :: 0 <= n < |moved| ==> moved[n].id == old(idAlloc) + 1 + n
    {
      hide IdsOk, Distinct, InsertedAll;
      ValidIsDistinct();
      ghost var s := entries;
      InsertedAllIsMore(s, dstIndex, moved);
      entries := InsertedAll(entries, dstIndex, moved);
      idAlloc := TakeOver(moved, dstIndex, idAlloc, s);
      IdsOfMore(s, dstIndex, moved, old(idAlloc));
      AllEntries(s, dstIndex, moved, entries);
      if current != null {
        InsertedAllHas(s, dstIndex, moved, current);
      }
    }

    lemma AllEntries(s: seq<Entry>, at: nat, moved: seq<Entry>, t: seq<Entry>)
      requires at <= |s| && t == InsertedAll(s, at, moved)
      requires forall n :: 0 <= n < |s| ==> s[n].pl == this && s[n].plIndex == n
      requires forall n :: 0 <= n < |moved| ==> moved[n].pl == this && moved[n].plIndex == at + n
      ensures forall n :: 0 <= n < |t| ==> t[n].pl == this && (t[n] in s || t[n] in moved)
      ensures forall n :: 0 <= n < at + |moved| ==> t[n].plIndex == n
    {
      hide InsertedAll;
      InsertedAllAt(s, at, moved);
    }

    // Where playlist_transfer_entries() wants the entries.
    function AddAt(): nat
      requires Valid()
      reads this, entries
    {
      if current == null then |entries|
      else current.plIndex + 1 + if currentWasReplaced then 1 else 0
    }

    // The code asserts that this is not past the end.
    lemma AddAtIsInListIff()
      requires Valid()
      ensures AddAt() <= |entries| <==>
              !(currentWasReplaced && current != null && current.plIndex == |entries| - 1)
    {
      if current != null {
        assert entries[current.plIndex] == current by {
          var n :| 0 <= n < |entries| && entries[n] == current;
        }
      }
    }

    method TransferEntries(source: Playlist) returns (first: nat)
      requires Valid() && source.Valid() && this != source
      requires AddAt() <= |entries|
      modifies this`entries, this`idAlloc, source`entries, entries`plIndex
      modifies source.entries`pl, source.entries`plIndex, source.entries`id
      ensures Valid()
      ensures entries == InsertedAll(old(entries), old(AddAt()), old(source.entries))
      ensures forall n :: 0 <= n < |old(source.entries)| ==> old(source.entries)[n].id == old(idAlloc) + 1 + n
      ensures first == if old(source.entries) == [] then 0 else old(idAlloc) + 1
      ensures source.entries == [] && (source.Valid() <==> source.current == null)
    {
      first := TransferEntriesTo(AddAt(), source);
    }

    // The loop over the transferred entries.
    method TakeOver(moved: seq<Entry>, dstIndex: nat, idBefore: nat, ghost others: seq<Entry>) returns (id: nat)
      requires Distinct(moved) && forall e :: e in others ==> e !in moved
      requires IdsOk(others, idBefore)
      modifies moved`pl, moved`plIndex, moved`id
      ensures forall k :: 0 <= k < |moved| ==>
                moved[k].pl == this && moved[k].plIndex == dstIndex + k && moved[k].id == idBefore + 1 + k
      ensures id == idBefore + |moved|
      ensures IdsOk(others, idBefore)
      ensures forall n :: 0 <= n < |others| ==>
                others[n].pl == old(others[n].pl) && others[n].plIndex == old(others[n].plIndex)
    {
      id := idBefore;
      var n := 0;
      assert forall k :: 0 <= k < |others| ==> others[k] in others;
      while n < |moved|
        invariant 0 <= n <= |moved| && id == idBefore + n
        invariant forall k :: 0 <= k < n ==>
                    moved[k].pl == this && moved[k].plIndex == dstIndex + k && moved[k].id == idBefore + 1 + k
        invariant forall k :: 0 <= k < |others| ==>
                    && others[k].pl == old(others[k].pl) && others[k].plIndex == old(others[k].plIndex)
                    && others[k].id == old(others[k].id)
      {
        var e := moved[n];
        e.pl := this;
        e.plIndex := dstIndex + n;
        id := id + 1;
        e.id := id;
        n := n + 1;
      }
    }
  }

  // --- Sorting ---

  datatype Key = Key(original: int, index: int)

  function CompareInt(a: int, b: int): int {
    if a == b then 0 else if a > b then 1 else -1
  }

  // cmp_unshuffle()
  function Compare(a: Key, b: Key): int {
    if a.original >= 0 && a.original != b.original then CompareInt(a.original, b.original)
    else CompareInt(a.index, b.index)
  }

  ghost predicate IsOrder(keys: seq<Key>) {
    && (forall i, j :: 0 <= i < |keys| && 0 <= j < |keys| ==> Compare(keys[i], keys[j]) == -Compare(keys[j], keys[i]))
    && forall i, j, k :: 0 <= i < |keys| && 0 <= j < |keys| && 0 <= k < |keys| ==>
         Compare(keys[i], keys[j]) < 0 && Compare(keys[j], keys[k]) < 0 ==> Compare(keys[i], keys[k]) < 0
  }

  // The comparison is an order exactly if no entry that was not there when the
  // list was shuffled is behind one that was.
  lemma CompareIsOrderIff(keys: seq<Key>)
    requires forall n :: 0 <= n < |keys| ==> keys[n].index == n
    ensures IsOrder(keys) <==> forall i, j :: 0 <= i < j < |keys| && keys[i].original >= 0 ==> keys[j].original >= 0
  {
    if i, j :| 0 <= i < j < |keys| && keys[i].original >= 0 && keys[j].original < 0 {
      assert Compare(keys[i], keys[j]) == 1 && Compare(keys[j], keys[i]) == 1;
    }
  }

  function KeyOf(e: Entry): Key
    reads e`originalIndex, e`plIndex
  {
    Key(e.originalIndex, e.plIndex)
  }

  ghost predicate UnknownFirst(s: seq<Entry>)
    reads s`originalIndex
  {
    forall i, j :: 0 <= i < j < |s| && s[i].originalIndex >= 0 ==> s[j].originalIndex >= 0
  }

  predicate Before(e: Entry, f: Entry)
    reads e`originalIndex, e`plIndex, f`originalIndex, f`plIndex
  {
    Compare(KeyOf(e), KeyOf(f)) < 0
  }

  ghost predicate Sorted(s: seq<Entry>)
    reads s`originalIndex, s`plIndex
  {
    forall i, j :: 0 <= i < j < |s| ==> Before(s[i], s[j])
  }

  // Entries that sort the same way in either order.
  ghost predicate Comparable(s: seq<Entry>)
    reads s`originalIndex, s`plIndex
  {
    forall e, f :: e in s && f in s && e != f ==>
      e.plIndex != f.plIndex && (e.originalIndex >= 0 && f.originalIndex < 0 ==> f.plIndex < e.plIndex)
  }

  lemma InsertedIsSorted(s: seq<Entry>, r: seq<Entry>, p: nat, e: Entry)
    requires p <= |r| && Sorted(r) && Comparable(s) && e in s && e !in r && forall f :: f in r ==> f in s
    requires forall k :: p <= k < |r| ==> Before(e, r[k])
    requires p > 0 ==> !Before(e, r[p - 1])
    ensures Sorted(Inserted(r, p, e))
  {
    if p > 0 {
      assert r[p - 1] in r && Before(r[p - 1], e);
      forall k | 0 <= k < p ensures Before(r[k], e) {
        assert r[k] in r;
      }
    }
  }

  lemma SortedIsDistinct(s: seq<Entry>)
    requires Sorted(s)
    ensures Distinct(s)
  {
    forall i, j | 0 <= i < j < |s| ensures s[i] != s[j] {
      assert Before(s[i], s[j]);
    }
  }

  lemma NoneSorted()
    ensures Sorted([])
  {
  }

  lemma InsertedHolds<T>(s: seq<T>, i: nat, x: T)
    requires i <= |s|
    ensures multiset(Inserted(s, i, x)) == multiset(s) + multiset{x}
  {
    assert s == s[..i] + s[i..];
  }

  // (qsort() may work in any other way: there is just one sorted list.)
  method Sort(s: seq<Entry>) returns (r: seq<Entry>)
    requires Distinct(s) && Comparable(s)
    ensures multiset(r) == multiset(s) && Sorted(r) && Distinct(r)
  {
    hide Sorted, Inserted, Comparable;
    r := [];
    NoneSorted();
    var n := 0;
    while n < |s|
      invariant 0 <= n <= |s| && multiset(r) == multiset(s[..n]) && Sorted(r)
    {
      var e := s[n];
      var p := |r|;
      while p > 0 && Before(e, r[p - 1])
        invariant 0 <= p <= |r| && forall k :: p <= k < |r| ==> Before(e, r[k])
      {
        p := p - 1;
      }
      SameEntries(s[..n], r);
      InsertedIsSorted(s, r, p, e);
      InsertedHolds(r, p, e);
      assert s[..n + 1] == s[..n] + [e];
      r := Inserted(r, p, e);
      n := n + 1;
    }
    assert s[..n] == s;
    SortedIsDistinct(r);
  }

  // --- Undoing a shuffle ---

  lemma {:induction false} SurvivorsAgree<T>(s: seq<T>, a: seq<T>, b: seq<T>)
    requires forall i :: 0 <= i < |s| ==> (s[i] in a <==> s[i] in b)
    ensures Survivors(s, a) == Survivors(s, b)
    decreases |s|
  {
    if s != [] {
      SurvivorsAgree(s[..|s| - 1], a, b);
    }
  }

  lemma {:induction false} NoSurvivors<T>(s: seq<T>)
    ensures Survivors(s, []) == []
    decreases |s|
  {
    if s != [] {
      NoSurvivors(s[..|s| - 1]);
    }
  }

  lemma SortedIsRestored(original: seq<Entry>, s: seq<Entry>, sorted: seq<Entry>)
    requires Distinct(original) && Sorted(sorted) && multiset(sorted) == multiset(s)
    requires forall e :: e in s ==> 0 <= e.originalIndex < |original| && original[e.originalIndex] == e
    ensures sorted == Survivors(original, s)
  {
    SameEntries(s, sorted);
    SameEntries(sorted, s);
    forall i, j | 0 <= i < j < |sorted| ensures sorted[i].originalIndex < sorted[j].originalIndex {
      assert Before(sorted[i], sorted[j]) && sorted[i] in s && sorted[j] in s;
    }
    SortedAreSurvivors(original, sorted);
    SurvivorsAgree(original, s, sorted);
  }

  // Survivors that are sorted by where they were are all survivors in their
  // order.
  lemma {:induction false} SortedAreSurvivors(original: seq<Entry>, s: seq<Entry>)
    requires Distinct(original)
    requires forall i :: 0 <= i < |s| ==> 0 <= s[i].originalIndex < |original| && original[s[i].originalIndex] == s[i]
    requires forall i, j :: 0 <= i < j < |s| ==> s[i].originalIndex < s[j].originalIndex
    ensures s == Survivors(original, s)
    decreases |original|
  {
    if original == [] {
      assert s == [];
    } else {
      var m := |original| - 1;
      var rest := original[..m];
      if s != [] && s[|s| - 1].originalIndex == m {
        var t := s[..|s| - 1];
        SortedAreSurvivors(rest, t);
        assert s == t + [original[m]];
        SurvivorsAgree(rest, s, t);
      } else {
        SortedAreSurvivors(rest, s);
      }
    }
  }

  // --- Runs ---

  // playlist_remove() and playlist_move(), by index. (There is nothing to do if
  // there is no such entry.)
  datatype Edit = Take(index: nat) | Put(from: nat, to: nat)

  function Apply<T>(s: seq<T>, e: Edit): seq<T> {
    match e
    case Take(i) => if i < |s| then Without(s, i) else s
    case Put(i, j) => if i < |s| && j <= |s| then Moved(s, i, j) else s
  }

  function Edited<T>(s: seq<T>, edits: seq<Edit>): seq<T>
    decreases |edits|
  {
    if edits == [] then s else Edited(Apply(s, edits[0]), edits[1..])
  }

  lemma WithoutHolds<T>(s: seq<T>, i: nat)
    requires i < |s|
    ensures multiset(Without(s, i)) == multiset(s) - multiset{s[i]}
  {
    assert s == s[..i] + [s[i]] + s[i + 1..];
  }

  lemma MovedHolds<T>(s: seq<T>, i: nat, j: nat)
    requires i < |s| && j <= |s|
    ensures multiset(Moved(s, i, j)) == multiset(s)
  {
    hide Without, Inserted;
    WithoutHolds(s, i);
    WithoutLength(s, i);
    InsertedHolds(Without(s, i), if i < j then j - 1 else j, s[i]);
    assert s[i] in multiset(s);
  }

  lemma WithoutLength<T>(s: seq<T>, i: nat)
    requires i < |s|
    ensures |Without(s, i)| == |s| - 1
  {
  }

  lemma ApplyKeepsOthers<T>(s: seq<T>, e: Edit)
    ensures multiset(Apply(s, e)) == multiset(s) - if e.Take? && e.index < |s| then multiset{s[e.index]} else multiset{}
  {
    hide Without, Moved;
    match e
    case Take(i) =>
      if i < |s| {
        WithoutHolds(s, i);
      }
    case Put(i, j) =>
      if i < |s| && j <= |s| {
        MovedHolds(s, i, j);
      }
  }

  // Whatever is removed and moved, what remains was there, and as often.
  lemma {:induction false} EditedAreSurvivors<T>(s: seq<T>, edits: seq<Edit>)
    ensures multiset(Edited(s, edits)) <= multiset(s)
    decreases |edits|
  {
    if edits != [] {
      ApplyKeepsOthers(s, edits[0]);
      EditedAreSurvivors(Apply(s, edits[0]), edits[1..]);
    }
  }

  // The assertion fails if the first of two entries is removed while it is
  // played: the last one is current then, and was replaced.
  method AddAtCanBePastTheEnd() returns (pl: Playlist)
    ensures pl.Valid() && pl.AddAt() == |pl.entries| + 1
  {
    hide IdsOk, Distinct;
    pl := new Playlist();
    var first := new Entry();
    var second := new Entry();
    pl.Add(first);
    pl.Add(second);
    assert pl.entries == [first, second];
    pl.current := first;
    pl.Remove(first);
    assert pl.entries == [second];
  }

  // A list that was shuffled, and then got a new entry at the end, is compared
  // with what is no order: each of the two entries is larger than the other.
  method NewEntriesAreNotOrdered() returns (pl: Playlist)
    ensures pl.Valid() && |pl.entries| == 2
    ensures Compare(KeyOf(pl.entries[0]), KeyOf(pl.entries[1])) == Compare(KeyOf(pl.entries[1]), KeyOf(pl.entries[0])) == 1
    ensures !UnknownFirst(pl.entries)
  {
    hide IdsOk, Distinct;
    pl := new Playlist();
    var first := new Entry();
    pl.Add(first);
    pl.Shuffle();
    OnlyEntry(pl.entries, first);
    var second := new Entry();
    pl.Add(second);
    assert pl.entries == [first, second];
  }

  lemma OnlyEntry(s: seq<Entry>, e: Entry)
    requires multiset(s) == multiset{e}
    ensures s == [e]
  {
    assert |s| == |multiset(s)| == 1;
    assert s[0] in multiset(s);
  }
}
