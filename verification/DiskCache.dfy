// The packet cache on disk: an append-only log of serialized packets.
//
// Reading, writing and seeking in the file may fail at any time, and transfers may
// stop half-way.

module DiskCache {
  import opened Bytes
  import opened Wrappers

  const INT32_MAX: nat := 0x7FFF_FFFF
  // What off_t can hold.
  const MAX_OFFSET: nat := 0x7FFF_FFFF_FFFF_FFFF
  // (uint64_t)-1
  const LOST: nat := 0xFFFF_FFFF_FFFF_FFFF

  datatype SideData = SideData(avType: nat, data: seq<Byte>)

  datatype DiskPacket = DiskPacket(data: seq<Byte>, flags: nat, side: seq<SideData>)

  // What the code asserts of packets to be written.
  ghost predicate Storable(p: DiskPacket) {
    && |p.data| <= INT32_MAX && p.flags <= INT32_MAX && |p.side| <= INT32_MAX
    && forall i :: 0 <= i < |p.side| ==> StorableSide(p.side[i])
  }

  ghost predicate StorableSide(sd: SideData) {
    sd.avType <= INT32_MAX && |sd.data| <= INT32_MAX
  }

  // --- Serialization ---

  // A 32 bit integer as it is in memory.
  function Word(v: nat): (s: seq<Byte>)
    ensures |s| == 4
  {
    [v % 256, v / 256 % 256, v / 65536 % 256, v / 16777216 % 256]
  }

  function FromWord(s: seq<Byte>): nat
    requires |s| == 4
  {
    s[0] as int + 256 * (s[1] as int) + 65536 * (s[2] as int) + 16777216 * (s[3] as int)
  }

  lemma WordRoundTrip(v: nat)
    requires v < 0x1_0000_0000
    ensures FromWord(Word(v)) == v
  {
    assert v / 256 / 256 == v / 65536 && v / 65536 / 256 == v / 16777216;
    assert v == v % 256 + 256 * (v / 256);
    assert v / 256 == v / 256 % 256 + 256 * (v / 65536);
    assert v / 65536 == v / 65536 % 256 + 256 * (v / 16777216);
  }

  function Header(p: DiskPacket): (s: seq<Byte>)
    ensures |s| == 12
  {
    Word(|p.data|) + Word(p.flags) + Word(|p.side|)
  }

  function SideHeader(sd: SideData): (s: seq<Byte>)
    ensures |s| == 8
  {
    Word(sd.avType) + Word(|sd.data|)
  }

  function SideBytes(side: seq<SideData>): seq<Byte> {
    if side == [] then [] else SideHeader(side[0]) + side[0].data + SideBytes(side[1..])
  }

  function Serialize(p: DiskPacket): (s: seq<Byte>)
    ensures |s| >= 12
  {
    Header(p) + p.data + SideBytes(p.side)
  }

  // What reading the side data at pos gives if nothing fails.
  function ParseSides(c: seq<Byte>, pos: nat, n: nat): Option<seq<SideData>>
    decreases n
  {
    if n == 0 then Some([])
    else if pos + 8 > |c| then None
    else
      var avType := FromWord(c[pos..pos + 4]);
      var len := FromWord(c[pos + 4..pos + 8]);
      if len > INT32_MAX || pos + 8 + len > |c| then None
      else Prepend([SideData(avType, c[pos + 8..pos + 8 + len])], ParseSides(c, pos + 8 + len, n - 1))
  }

  // What reading a packet at pos gives if nothing fails.
  function Parse(c: seq<Byte>, pos: nat): Option<DiskPacket> {
    if pos + 12 > |c| then None
    else
      var len := FromWord(c[pos..pos + 4]);
      var flags := FromWord(c[pos + 4..pos + 8]);
      var n := FromWord(c[pos + 8..pos + 12]);
      if len > INT32_MAX || pos + 12 + len > |c| then None
      else
        var side := ParseSides(c, pos + 12 + len, n);
        if side.None? then None else Some(DiskPacket(c[pos + 12..pos + 12 + len], flags, side.value))
  }

  lemma {:induction false} SidesRoundTrip(c: seq<Byte>, pos: nat, side: seq<SideData>)
    requires HasAt(c, pos, SideBytes(side))
    requires forall i :: 0 <= i < |side| ==> StorableSide(side[i])
    ensures ParseSides(c, pos, |side|) == Some(side)
    decreases |side|
  {
    hide HasAt, FromWord, Word;
    if side != [] {
      var sd := side[0];
      var rest := side[1..];
      HasParts(c, pos, SideHeader(sd) + sd.data, SideBytes(rest));
      HasParts(c, pos, SideHeader(sd), sd.data);
      HasParts(c, pos, Word(sd.avType), Word(|sd.data|));
      HasSlice(c, pos, Word(sd.avType));
      HasSlice(c, pos + 4, Word(|sd.data|));
      HasSlice(c, pos + 8, sd.data);
      WordRoundTrip(sd.avType);
      WordRoundTrip(|sd.data|);
      SidesRoundTrip(c, pos + 8 + |sd.data|, rest);
      assert [sd] + rest == side;
    }
  }

  // A packet that is in the file in full is read back as it was: payload,
  // flags, and the side data in its order.
  lemma PacketRoundTrip(c: seq<Byte>, pos: nat, p: DiskPacket)
    requires Storable(p) && HasAt(c, pos, Serialize(p))
    ensures Parse(c, pos) == Some(p)
  {
    hide HasAt, FromWord, Word, SideBytes, ParseSides;
    HasParts(c, pos, Header(p) + p.data, SideBytes(p.side));
    HasParts(c, pos, Header(p), p.data);
    HasParts(c, pos, Word(|p.data|) + Word(p.flags), Word(|p.side|));
    HasParts(c, pos, Word(|p.data|), Word(p.flags));
    HasSlice(c, pos, Word(|p.data|));
    HasSlice(c, pos + 4, Word(p.flags));
    HasSlice(c, pos + 8, Word(|p.side|));
    HasSlice(c, pos + 12, p.data);
    WordRoundTrip(|p.data|);
    WordRoundTrip(p.flags);
    WordRoundTrip(|p.side|);
    SidesRoundTrip(c, pos + 12 + |p.data|, p.side);
  }

  // --- The file ---

  class File {
    var contents: seq<Byte>
    var offset: nat
    // Whether the system currently completes each transfer it can.
    var reliable: bool

    constructor ()
      ensures contents == [] && offset == 0
    {
      contents, offset, reliable := [], 0, true;
    }

    // lseek()
    method Seek(pos: nat) returns (res: int)
      modifies this`offset
      ensures res == -1 || res == pos <= MAX_OFFSET
      ensures offset == if res < 0 then old(offset) else pos
      ensures reliable && pos <= MAX_OFFSET ==> res == pos
    {
      if pos > MAX_OFFSET {
        return -1;
      }
      var fails: bool := *;
      if !reliable && fails {
        return -1;
      }
      offset := pos;
      res := pos;
    }

    // write(): an error, or some of the data. A file that is written to behind
    // its end is filled up with zeros.
    method Write(data: seq<Byte>) returns (res: int)
      modifies this`contents, this`offset
      ensures -1 <= res <= |data|
      ensures reliable && old(offset) + |data| <= MAX_OFFSET ==> res == |data|
      ensures res < 0 ==> contents == old(contents) && offset == old(offset)
      ensures res >= 0 ==> offset == old(offset) + res && (res > 0 ==> offset <= MAX_OFFSET)
      ensures |old(contents)| <= MAX_OFFSET ==> |contents| <= MAX_OFFSET
      ensures res >= 0 && old(offset) <= |old(contents)| ==>
                && offset <= |contents| && |old(contents)| <= |contents|
                && contents[..old(offset)] == old(contents)[..old(offset)]
                && HasAt(contents, old(offset), data[..res])
    {
      if offset + |data| > MAX_OFFSET {
        return -1;
      }
      if reliable {
        res := |data|;
      } else {
        res :| -1 <= res <= |data|;
      }
      if res > 0 {
        var head := if offset <= |contents| then contents[..offset] else contents + seq(offset - |contents|, _ => 0);
        var rest := if offset + res <= |contents| then contents[offset + res..] else [];
        contents := head + data[..res] + rest;
        offset := offset + res;
      }
    }

    // read(): an error, or some of the data that is there.
    method Read(len: nat) returns (res: int, data: seq<Byte>)
      modifies this`offset
      ensures -1 <= res <= len
      ensures res < 0 ==> !reliable && offset == old(offset)
      ensures res >= 0 ==> offset == old(offset) + res && |data| == res
      ensures res > 0 ==> HasAt(contents, old(offset), data)
      ensures reliable && old(offset) + len <= |contents| ==> res == len
    {
      var available := if offset + len <= |contents| then len else if offset <= |contents| then |contents| - offset else 0;
      if reliable {
        res := available;
      } else {
        res :| -1 <= res <= available;
      }
      data := [];
      if res > 0 {
        data := contents[offset..offset + res];
        offset := offset + res;
      }
    }
  }

  // --- The cache ---

  class DemuxCache {
    const file: File
    // -1 if not known.
    var filePos: int
    var fileSize: nat
    // The packets written so far, by position.
    ghost var log: map<nat, DiskPacket>

    // The position is that of the file, if it is known.
    ghost predicate Placed()
      reads this`filePos, file`offset
    {
      filePos == -1 || filePos == file.offset
    }

    ghost predicate Valid()
      reads this, file
    {
      && Placed()
      && fileSize <= |file.contents| <= MAX_OFFSET
      && Holds(file.contents, fileSize, log)
    }

    constructor ()
      ensures Valid() && fresh(file) && log == map[]
    {
      file := new File();
      filePos, fileSize := 0, 0;
      log := map[];
    }

    // The size of the file is no longer known.
    ghost predicate Lost()
      reads this, file`contents
    {
      fileSize == LOST && -1 <= filePos < LOST && |file.contents| <= MAX_OFFSET
    }

    // The position as an unsigned number.
    function Unsigned(pos: int): nat {
      if pos < 0 then LOST else pos
    }

    function Signed(pos: nat): int {
      if pos <= MAX_OFFSET then pos else pos - LOST - 1
    }

    method DoSeek(pos: nat) returns (ok: bool)
      requires filePos >= -1
      modifies this`filePos, file`offset
      ensures old(Placed()) ==> Placed()
      ensures Unsigned(old(filePos)) == pos ==> ok && filePos == old(filePos) && file.offset == old(file.offset)
      ensures Unsigned(old(filePos)) != pos ==> filePos == if ok then pos else -1
      ensures ok && Unsigned(old(filePos)) != pos ==> file.offset == pos
      ensures !ok ==> file.offset == old(file.offset)
      ensures file.reliable && pos <= MAX_OFFSET ==> ok
      ensures pos > MAX_OFFSET && Unsigned(old(filePos)) != pos ==> !ok
    {
      if Unsigned(filePos) == pos {
        return true;
      }
      var res := file.Seek(pos);
      filePos := if res == -1 then -1 else res;
      ok := filePos >= 0;
    }

    // Writes data. If the file is at a place within it, the data goes behind what
    // was written from start on.
    method WriteRaw(data: seq<Byte>, ghost start: nat, ghost written: seq<Byte>, ghost inside: bool) returns (ok: bool)
      requires filePos >= -1
      requires fileSize != LOST ==> inside && filePos == file.offset && fileSize <= |file.contents|
      requires inside ==> file.offset == start + |written| <= |file.contents| <= MAX_OFFSET && HasAt(file.contents, start, written)
      modifies this`filePos, this`fileSize, file`contents, file`offset
      ensures filePos >= old(filePos) && filePos - old(filePos) == file.offset - old(file.offset)
      ensures filePos > old(filePos) ==> file.offset <= MAX_OFFSET
      ensures |old(file.contents)| <= MAX_OFFSET ==> |file.contents| <= MAX_OFFSET
      ensures old(fileSize) == LOST ==> fileSize == LOST
      ensures old(fileSize) != LOST ==>
                && filePos == file.offset && old(fileSize) <= fileSize <= |file.contents|
                && (ok ==> fileSize == if old(fileSize) > filePos then old(fileSize) else filePos)
      ensures inside ==>
                && file.offset <= |file.contents| <= MAX_OFFSET
                && |old(file.contents)| <= |file.contents| && file.contents[..start] == old(file.contents)[..start]
                && (ok ==> file.offset == start + |written + data| && HasAt(file.contents, start, written + data))
                && (file.reliable && start + |written + data| <= MAX_OFFSET ==> ok)
    {
      hide HasAt;
      var res := file.Write(data);
      if res < 0 {
        if inside {
          HasSlice(file.contents, start, written);
        }
        return false;
      }
      if inside {
        HasSlice(old(file.contents), start, written);
        Appended(old(file.contents), file.contents, start, written, data[..res]);
      }
      filePos := filePos + res;
      // (No 64 bit number is larger than LOST.)
      fileSize := if fileSize == LOST || fileSize > filePos then fileSize else filePos;
      if res != |data| {
        return false;
      }
      assert data[..res] == data;
      ok := true;
    }

    method ReadRaw(len: nat) returns (ok: bool, data: seq<Byte>)
      requires filePos == file.offset
      modifies this`filePos, file`offset
      ensures filePos == file.offset && (filePos > old(filePos) ==> filePos <= |file.contents|)
      ensures ok ==> |data| == len && filePos == old(filePos) + len
      ensures ok && len > 0 ==> HasAt(file.contents, old(filePos), data)
      ensures file.reliable && old(filePos) + len <= |file.contents| ==> ok
    {
      var res;
      res, data := file.Read(len);
      if res < 0 {
        return false, [];
      }
      filePos := filePos + res;
      ok := res == len;
    }

    // What demux_cache_write() appends, until a write fails.
    method WritePieces(p: DiskPacket) returns (ok: bool)
      requires fileSize != LOST ==> filePos == file.offset == fileSize <= |file.contents| <= MAX_OFFSET
      requires filePos >= -1
      modifies this`filePos, this`fileSize, file`contents, file`offset
      ensures filePos >= old(filePos) && filePos - old(filePos) == file.offset - old(file.offset)
      ensures filePos > old(filePos) ==> file.offset <= MAX_OFFSET
      ensures |old(file.contents)| <= MAX_OFFSET ==> |file.contents| <= MAX_OFFSET
      ensures old(fileSize) == LOST ==> fileSize == LOST
      ensures old(fileSize) != LOST ==>
                && filePos == file.offset && old(filePos) <= fileSize <= |file.contents|
                && (ok ==> fileSize == old(filePos) + |Serialize(p)|)
      ensures old(file.offset) <= |old(file.contents)| <= MAX_OFFSET ==>
                && |old(file.contents)| <= |file.contents| <= MAX_OFFSET
                && file.contents[..old(file.offset)] == old(file.contents)[..old(file.offset)]
                && (ok ==> HasAt(file.contents, old(file.offset), Serialize(p)))
                && (file.reliable && old(file.offset) + |Serialize(p)| <= MAX_OFFSET ==> ok)
    {
      hide HasAt, Word;
      ghost var pos := file.offset;
      ghost var inside := file.offset <= |file.contents| <= MAX_OFFSET;
      ghost var tracked := fileSize != LOST;
      if inside {
        NothingAt(file.contents, pos);
        SerializedSize(p);
      }
      ok := WriteRaw(Header(p), pos, [], inside);
      if !ok {
        return;
      }
      assert [] + Header(p) == Header(p);
      ok := WriteRaw(p.data, pos, Header(p), inside);
      if !ok {
        return;
      }
      ok := WriteSides(p.side, pos, Header(p) + p.data, inside);
    }

    // The loop over the side data.
    method WriteSides(side: seq<SideData>, ghost start: nat, ghost written: seq<Byte>, ghost inside: bool) returns (ok: bool)
      requires filePos >= -1
      requires fileSize != LOST ==> inside && filePos == file.offset == fileSize
      requires inside ==> file.offset == start + |written| <= |file.contents| <= MAX_OFFSET && HasAt(file.contents, start, written)
      modifies this`filePos, this`fileSize, file`contents, file`offset
      ensures filePos >= old(filePos) && filePos - old(filePos) == file.offset - old(file.offset)
      ensures filePos > old(filePos) ==> file.offset <= MAX_OFFSET
      ensures |old(file.contents)| <= MAX_OFFSET ==> |file.contents| <= MAX_OFFSET
      ensures old(fileSize) == LOST ==> fileSize == LOST
      ensures old(fileSize) != LOST ==>
                filePos == file.offset && old(fileSize) <= fileSize <= |file.contents| && (ok ==> fileSize == filePos)
      ensures inside ==>
                && file.offset <= |file.contents| <= MAX_OFFSET
                && |old(file.contents)| <= |file.contents| && file.contents[..start] == old(file.contents)[..start]
                && (ok ==> var all := written + SideBytes(side);
                           file.offset == start + |all| && HasAt(file.contents, start, all))
                && (file.reliable && start + |written| + |SideBytes(side)| <= MAX_OFFSET ==> ok)
    {
      hide HasAt, Word;
      ghost var tracked := fileSize != LOST;
      ghost var soFar := written;
      var n := 0;
      while n < |side|
        invariant 0 <= n <= |side| && filePos >= old(filePos) && filePos - old(filePos) == file.offset - old(file.offset)
        invariant filePos > old(filePos) ==> file.offset <= MAX_OFFSET
        invariant |old(file.contents)| <= MAX_OFFSET ==> |file.contents| <= MAX_OFFSET
        invariant !tracked ==> fileSize == LOST
        invariant tracked ==> filePos == file.offset == fileSize <= |file.contents| && old(fileSize) <= fileSize
        invariant inside ==> file.offset == start + |soFar| <= |file.contents| <= MAX_OFFSET
        invariant inside ==> |old(file.contents)| <= |file.contents| && file.contents[..start] == old(file.contents)[..start]
        invariant inside ==> HasAt(file.contents, start, soFar)
        invariant soFar + SideBytes(side[n..]) == written + SideBytes(side)
      {
        var sd := side[n];
        assert side[n..][1..] == side[n + 1..];
        Reassociate(soFar, SideHeader(sd), sd.data, SideBytes(side[n + 1..]));
        ok := WriteSide(sd, start, soFar, inside);
        if !ok {
          return;
        }
        soFar := soFar + SideHeader(sd) + sd.data;
        n := n + 1;
      }
      assert side[n..] == [] && soFar + [] == soFar;
      ok := true;
    }

    method WriteSide(sd: SideData, ghost start: nat, ghost written: seq<Byte>, ghost inside: bool) returns (ok: bool)
      requires filePos >= -1
      requires fileSize != LOST ==> inside && filePos == file.offset == fileSize
      requires inside ==> file.offset == start + |written| <= |file.contents| <= MAX_OFFSET && HasAt(file.contents, start, written)
      modifies this`filePos, this`fileSize, file`contents, file`offset
      ensures filePos >= old(filePos) && filePos - old(filePos) == file.offset - old(file.offset)
      ensures filePos > old(filePos) ==> file.offset <= MAX_OFFSET
      ensures |old(file.contents)| <= MAX_OFFSET ==> |file.contents| <= MAX_OFFSET
      ensures old(fileSize) == LOST ==> fileSize == LOST
      ensures old(fileSize) != LOST ==>
                filePos == file.offset && old(fileSize) <= fileSize <= |file.contents| && (ok ==> fileSize == filePos)
      ensures inside ==>
                && file.offset <= |file.contents| <= MAX_OFFSET
                && |old(file.contents)| <= |file.contents| && file.contents[..start] == old(file.contents)[..start]
                && (ok ==> var all := written + SideHeader(sd) + sd.data;
                           file.offset == start + |all| && HasAt(file.contents, start, all))
                && (file.reliable && start + |written| + |SideHeader(sd)| + |sd.data| <= MAX_OFFSET ==> ok)
    {
      hide HasAt, Word;
      ok := WriteRaw(SideHeader(sd), start, written, inside);
      if !ok {
        return;
      }
      ok := WriteRaw(sd.data, start, written + SideHeader(sd), inside);
    }

    // demux_cache_write(): the position of the packet, or a negative number.
    // Nothing that was logged is lost unless a failed write cannot be taken back.
    // After that, the size of the file is not known, and no write is reported to
    // succeed. But every second one at least writes where the file happens to be.
    method Write(p: DiskPacket, trusted: bool) returns (res: int)
      requires (Valid() || Lost()) && (trusted || Storable(p))
      modifies this, file`contents, file`offset
      ensures old(Lost()) ==> Lost() && res < 0
      ensures old(!Lost()) ==> Valid() || (Lost() && filePos == -1 && res < 0 && Holds(file.contents, old(fileSize), log))
      // A position that is known is given up. Nothing is written.
      ensures old(Lost()) && !trusted && old(filePos) >= 0 ==>
                filePos == -1 && file.contents == old(file.contents) && file.offset == old(file.offset)
      // Otherwise what comes before the place in the file stays, and what comes
      // behind it is overwritten.
      ensures old(Lost()) && !trusted && old(filePos) == -1 && old(file.offset) <= |old(file.contents)| <= MAX_OFFSET ==>
                && |old(file.contents)| <= |file.contents|
                && file.contents[..old(file.offset)] == old(file.contents)[..old(file.offset)]
                && (file.reliable && old(file.offset) + |Serialize(p)| <= MAX_OFFSET ==>
                      HasAt(file.contents, old(file.offset), Serialize(p)))
      ensures res < 0 ==> log == old(log) && (fileSize == old(fileSize) || fileSize == LOST)
      ensures res >= 0 ==> res == old(fileSize) && res !in old(log) && log == old(log)[res := p]
      ensures res >= 0 ==> fileSize == res + |Serialize(p)|
      ensures file.reliable ==> fileSize == old(fileSize) || res >= 0
      ensures file.reliable && !trusted && old(fileSize) + |Serialize(p)| <= MAX_OFFSET ==> res >= 0
    {
      hide HasAt, Serialize;
      if trusted {
        return -1;
      }
      ghost var tracked := fileSize != LOST;
      var ok := DoSeek(fileSize);
      if !ok {
        return -1;
      }
      var pos := Unsigned(filePos);
      ghost var c := file.contents;
      ok := WritePieces(p);
      if tracked {
        StillHolds(c, file.contents, pos, log);
      }
      if ok {
        if tracked {
          log := log[pos := p];
        }
        return Signed(pos);
      }
      // Do not append to what was written in part.
      ok := DoSeek(pos);
      fileSize := Unsigned(filePos);
      res := -1;
    }

    // demux_cache_read()
    method Read(pos: nat) returns (res: Option<DiskPacket>)
      requires (Valid() || (Lost() && Placed())) && pos < LOST
      modifies this`filePos, file`offset
      ensures old(Valid()) ==> Valid()
      ensures old(Lost()) ==> Lost() && Placed()
      ensures res == None || res == Parse(file.contents, pos)
      ensures res.Some? ==> filePos == file.offset == pos + |Serialize(res.value)|
      ensures file.reliable && pos <= MAX_OFFSET ==> res == Parse(file.contents, pos)
      ensures pos in log && old(Valid()) ==> res == None || res == Some(log[pos])
      ensures pos in log && old(Valid()) && file.reliable ==> res == Some(log[pos])
    {
      hide HasAt, FromWord, Serialize, ParseSides, Holds;
      if pos in log && Valid() {
        HeldIsRead(file.contents, fileSize, log, pos);
      }
      ghost var c := file.contents;
      var ok := DoSeek(pos);
      if !ok {
        return None;
      }
      var hd;
      ok, hd := ReadRaw(12);
      if !ok {
        return None;
      }
      ReadField(c, pos, hd, 0, 4);
      ReadField(c, pos, hd, 4, 8);
      ReadField(c, pos, hd, 8, 12);
      var len := FromWord(hd[..4]);
      if len > INT32_MAX {
        return None;
      }
      var data;
      ok, data := ReadRaw(len);
      if !ok {
        return None;
      }
      ReadAt(c, pos + 12, data);
      var side := ReadSides(FromWord(hd[8..12]));
      res := if side.None? then None else Some(DiskPacket(data, FromWord(hd[4..8]), side.value));
      if side.Some? {
        SerializedLength(res.value);
      }
    }

    // The loop over the side data.
    method ReadSides(count: nat) returns (res: Option<seq<SideData>>)
      requires filePos == file.offset
      modifies this`filePos, file`offset
      ensures filePos == file.offset && (filePos > old(filePos) ==> filePos <= |file.contents|)
      ensures res.Some? ==> filePos == old(filePos) + |SideBytes(res.value)|
      ensures res == None || res == ParseSides(file.contents, old(filePos), count)
      ensures file.reliable ==> res == ParseSides(file.contents, old(filePos), count)
    {
      hide HasAt, FromWord;
      ghost var c := file.contents;
      ghost var all := ParseSides(c, filePos, count);
      PrependNothing(all);
      var side: seq<SideData> := [];
      var n := 0;
      while n < count
        invariant 0 <= n <= count && filePos == file.offset == old(filePos) + |SideBytes(side)|
        invariant filePos > old(filePos) ==> filePos <= |c|
        invariant all == Prepend(side, ParseSides(c, filePos, count - n))
      {
        ghost var p := filePos;
        var ok, hd := ReadRaw(8);
        if !ok {
          return None;
        }
        ReadField(c, p, hd, 0, 4);
        ReadField(c, p, hd, 4, 8);
        var len := FromWord(hd[4..8]);
        if len > INT32_MAX {
          return None;
        }
        var data;
        ok, data := ReadRaw(len);
        if !ok {
          return None;
        }
        ReadAt(c, p + 8, data);
        var sd := SideData(FromWord(hd[..4]), data);
        PrependTwice(side, [sd], ParseSides(c, filePos, count - n - 1));
        SideBytesLength(side, sd);
        side := side + [sd];
        n := n + 1;
      }
      assert side + [] == side;
      res := Some(side);
    }
  }

  lemma SerializedLength(p: DiskPacket)
    ensures |Serialize(p)| == 12 + |p.data| + |SideBytes(p.side)|
  {
  }

  lemma {:induction false} SideBytesLength(side: seq<SideData>, sd: SideData)
    ensures |SideBytes(side + [sd])| == |SideBytes(side)| + 8 + |sd.data|
  {
    if side == [] {
      assert [] + [sd] == [sd];
    } else {
      SideBytesLength(side[1..], sd);
      assert (side + [sd])[1..] == side[1..] + [sd];
    }
  }

  lemma SerializedSize(p: DiskPacket)
    ensures |Serialize(p)| >= |Header(p)| + |p.data|
  {
  }

  lemma ReadAt(c: seq<Byte>, pos: nat, s: seq<Byte>)
    requires |s| > 0 ==> HasAt(c, pos, s)
    ensures |s| > 0 ==> pos + |s| <= |c|
    ensures pos + |s| <= |c| ==> c[pos..pos + |s|] == s
  {
  }

  // A field of a header that was read.
  lemma ReadField(c: seq<Byte>, pos: nat, s: seq<Byte>, i: nat, j: nat)
    requires |s| > 0 && HasAt(c, pos, s) && i <= j <= |s|
    ensures pos + |s| <= |c| && c[pos + i..pos + j] == s[i..j]
  {
    var t := c[pos..pos + |s|];
    forall k | 0 <= k < j - i ensures c[pos + i..pos + j][k] == s[i..j][k] {
      assert c[pos + i..pos + j][k] == c[pos + i + k] == t[i + k];
    }
  }

  lemma Reassociate(a: seq<Byte>, b: seq<Byte>, c: seq<Byte>, d: seq<Byte>)
    ensures a + (b + c + d) == a + b + c + d
  {
  }

  lemma Appended(b: seq<Byte>, c: seq<Byte>, pos: nat, s: seq<Byte>, t: seq<Byte>)
    requires HasAt(b, pos, s) && pos + |s| <= |c| && c[..pos + |s|] == b[..pos + |s|] && HasAt(c, pos + |s|, t)
    ensures c[..pos] == b[..pos] && HasAt(c, pos, s + t)
  {
    assert c[..pos] == c[..pos + |s|][..pos] && b[..pos] == b[..pos + |s|][..pos];
    HasBefore(b, c, pos, s, pos + |s|);
    HasParts(c, pos, s, t);
  }

  lemma StillHolds(c: seq<Byte>, d: seq<Byte>, size: nat, log: map<nat, DiskPacket>)
    requires Holds(c, size, log) && size <= |c| && size <= |d| && c[..size] == d[..size]
    ensures Holds(d, size, log)
  {
    forall pos | pos in log ensures HoldsPacket(d, size, pos, log[pos]) {
      assert HoldsPacket(c, size, pos, log[pos]);
      HasBefore(c, d, pos, Serialize(log[pos]), size);
    }
  }

  lemma HeldIsRead(c: seq<Byte>, size: nat, log: map<nat, DiskPacket>, pos: nat)
    requires Holds(c, size, log) && pos in log
    ensures Parse(c, pos) == Some(log[pos])
  {
    hide Parse, HasAt, Serialize;
    assert HoldsPacket(c, size, pos, log[pos]);
    PacketRoundTrip(c, pos, log[pos]);
  }

  // All logged packets are in the first size bytes.
  ghost predicate Holds(c: seq<Byte>, size: nat, log: map<nat, DiskPacket>) {
    forall pos :: pos in log ==> HoldsPacket(c, size, pos, log[pos])
  }

  ghost predicate HoldsPacket(c: seq<Byte>, size: nat, pos: nat, p: DiskPacket) {
    Storable(p) && pos + |Serialize(p)| <= size && HasAt(c, pos, Serialize(p))
  }

  // What can happen then: after p was read back, the second packet that is written
  // is written over q, which comes behind p. (Nothing fails any more.)
  method WriteOverNext(cache: DemuxCache, p: DiskPacket, q: DiskPacket, r: DiskPacket)
    requires cache.Lost() && cache.Placed() && cache.file.reliable
    requires Storable(p) && Storable(q) && Storable(r) && q != r
    requires HasAt(cache.file.contents, 0, Serialize(p) + Serialize(q))
    requires |cache.file.contents| + |Serialize(r)| <= MAX_OFFSET
    modifies cache, cache.file`contents, cache.file`offset
    ensures Parse(old(cache.file.contents), |Serialize(p)|) == Some(q)
    ensures Parse(cache.file.contents, |Serialize(p)|) == Some(r)
  {
    hide HasAt, Parse, Serialize;
    var c := cache.file.contents;
    HasParts(c, 0, Serialize(p), Serialize(q));
    PacketRoundTrip(c, 0, p);
    PacketRoundTrip(c, |Serialize(p)|, q);
    HasSlice(c, 0, Serialize(p) + Serialize(q));
    var read := cache.Read(0);
    var first := cache.Write(r, false);
    var second := cache.Write(r, false);
    PacketRoundTrip(cache.file.contents, |Serialize(p)|, r);
  }
}
