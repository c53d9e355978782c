// The RealAudio packet reordering of the Matroska demuxer (cook and atrac3): a
// block of packets is cut into sub-packets, which are put back in order.

module RealAudio {
  import opened Timestamps
  import opened Bytes

  // --- Where the sub-packets go ---

  // The column that packet spc of a block fills.
  function Column(sph: nat, spc: nat): (c: nat)
    ensures spc < sph ==> c < sph
  {
    (sph + 1) / 2 * (spc % 2) + spc / 2
  }

  function Slot(sph: nat, spc: nat, x: nat): nat {
    sph * x + Column(sph, spc)
  }

  // The packet that fills a column, and the packet and sub-packet in a slot.
  function PacketOf(sph: nat, column: nat): nat {
    var half := (sph + 1) / 2;
    if column < half then 2 * column else 2 * (column - half) + 1
  }

  // The row and the column of a slot.
  function Row(sph: nat, k: nat): nat
    requires sph > 0
  {
    k / sph
  }

  function Col(sph: nat, k: nat): (c: nat)
    requires sph > 0
    ensures c < sph
  {
    k % sph
  }

  lemma ColumnIs(sph: nat, a: nat)
    requires a < sph
    ensures if a % 2 == 0 then 2 * Column(sph, a) == a && Column(sph, a) < (sph + 1) / 2
            else Column(sph, a) == (sph + 1) / 2 + a / 2
  {
  }

  lemma ColumnInverse(sph: nat, spc: nat)
    requires spc < sph
    ensures PacketOf(sph, Column(sph, spc)) == spc
    ensures PacketOf(sph, spc) < sph && Column(sph, PacketOf(sph, spc)) == spc
  {
    ColumnIs(sph, spc);
    PacketOfIs(sph, spc);
    ColumnIs(sph, PacketOf(sph, spc));
    hide Column;
  }

  lemma PacketOfIs(sph: nat, c: nat)
    requires c < sph
    ensures var p := PacketOf(sph, c);
            && p < sph
            && if c < (sph + 1) / 2 then p % 2 == 0 && p == 2 * c else p % 2 == 1 && p / 2 == c - (sph + 1) / 2
  {
  }

  lemma DivMod(d: nat, q: nat, r: nat)
    requires r < d
    ensures (d * q + r) / d == q && (d * q + r) % d == r
  {
    DivModUnique(d, q, r, (d * q + r) / d, (d * q + r) % d);
  }

  lemma DivModUnique(d: nat, q: nat, r: nat, p: int, s: nat)
    requires r < d && s < d && p >= 0 && d * p + s == d * q + r
    ensures p == q && s == r
  {
    if p < q {
      MulLess(d, p, q);
    } else if q < p {
      MulLess(d, q, p);
    }
  }

  lemma MulLess(d: nat, a: nat, b: nat)
    requires a < b
    ensures d * a + d <= d * b
  {
    assert d * (b - a - 1) >= 0;
  }

  lemma SlotBound(sph: nat, n: nat, spc: nat, x: nat)
    requires spc < sph && x < n
    ensures Slot(sph, spc, x) < sph * n
  {
    hide Column;
    MulLess(sph, x, n);
  }

  // The sub-packets of a block go to slots that are pairwise distinct and in
  // bounds,
  lemma PlaceOf(sph: nat, n: nat, spc: nat, x: nat)
    requires spc < sph && x < n
    ensures Slot(sph, spc, x) < sph * n
    ensures Row(sph, Slot(sph, spc, x)) == x && PacketOf(sph, Col(sph, Slot(sph, spc, x))) == spc
  {
    hide Column, PacketOf;
    SlotBound(sph, n, spc, x);
    DivMod(sph, x, Column(sph, spc));
    ColumnInverse(sph, spc);
  }

  // ... and no slot is left over.
  lemma SlotOf(sph: nat, n: nat, k: nat)
    requires 0 < sph && k < sph * n
    ensures PacketOf(sph, Col(sph, k)) < sph && Row(sph, k) < n
    ensures Slot(sph, PacketOf(sph, Col(sph, k)), Row(sph, k)) == k
  {
    hide Column, PacketOf;
    var q, r := Row(sph, k), k % sph;
    assert k == sph * q + r;
    ColumnInverse(sph, r);
  }

  // The order in which they are put out: the first sub-packets of all packets, then
  // the second ones, and so on; each time those of the even packets come before those
  // of the odd ones.
  lemma SlotOrder(sph: nat, a: nat, x: nat, b: nat, y: nat)
    requires a < sph && b < sph
    ensures Slot(sph, a, x) < Slot(sph, b, y)
            <==> x < y || (x == y && (a % 2 < b % 2 || (a % 2 == b % 2 && a < b)))
  {
    ColumnOrder(sph, a, b);
    hide Column;
    if x < y {
      MulLess(sph, x, y);
    } else if y < x {
      MulLess(sph, y, x);
    }
  }

  lemma ColumnOrder(sph: nat, a: nat, b: nat)
    requires a < sph && b < sph
    ensures Column(sph, a) < Column(sph, b) <==> a % 2 < b % 2 || (a % 2 == b % 2 && a < b)
  {
    ColumnIs(sph, a);
    ColumnIs(sph, b);
    hide Column;
  }

  // The number of sub-packets in a packet.
  function SubPackets(sps: nat, w: nat): nat
    requires 0 < sps
  {
    w / sps
  }

  // The part of the buffer that sub-packets are copied to.
  function Used(sps: nat, sph: nat, w: nat): nat
    requires 0 < sps
  {
    sps * (sph * SubPackets(sps, w))
  }

  // All slots are there, and none is behind the end of the buffer.
  lemma SlotInBuffer(sps: nat, sph: nat, w: nat, spc: nat, x: nat)
    requires 0 < sps && spc < sph && x < SubPackets(sps, w)
    ensures sps * x + sps <= sps * SubPackets(sps, w) <= w
    ensures sps * Slot(sph, spc, x) + sps <= Used(sps, sph, w) <= sph * w
  {
    hide Slot;
    var n := SubPackets(sps, w);
    MulLess(sps, x, n);
    SlotBound(sph, n, spc, x);
    MulLess(sps, Slot(sph, spc, x), sph * n);
    assert sps * (sph * n) == sph * (sps * n);
    MulAtMost(sph, sps * n, w);
  }

  // No offset wraps around.
  lemma NoWrap(sps: nat, sph: nat, w: nat, spc: nat, x: nat)
    requires 0 < sps && spc < sph < 65536 && w < 65536 && x < SubPackets(sps, w)
    ensures U32(sps * Slot(sph, spc, x)) == sps * Slot(sph, spc, x)
    ensures U32(sps * x) == sps * x
  {
    hide Slot;
    SlotInBuffer(sps, sph, w, spc, x);
    MulAtMost(sph, w, 65535);
  }

  lemma MulAtMost(d: nat, a: nat, b: nat)
    requires a <= b
    ensures d * a <= d * b
  {
    assert d * (b - a) >= 0;
  }

  // The packets that are put out have nothing but the sub-packets of the block,
  // exactly if what the packets have besides them is not enough for one more.
  lemma OnlySubPacketsIff(sps: nat, sph: nat, w: nat)
    requires 0 < sps
    ensures sph * w / sps == sph * SubPackets(sps, w) <==> sph * (w % sps) < sps
  {
    var n, r := w / sps, w % sps;
    Rearrange(sps, sph, n, r);
    assert sph * w == sps * (sph * n) + sph * r;
    RestIff(sps, sph * n, sph * r);
  }

  lemma Rearrange(sps: nat, sph: nat, n: nat, r: nat)
    ensures sph * (sps * n + r) == sps * (sph * n) + sph * r
  {
  }

  lemma RestIff(d: nat, q: nat, r: nat)
    requires 0 < d
    ensures (d * q + r) / d == q <==> r < d
  {
    var p, s := (d * q + r) / d, (d * q + r) % d;
    if r < d {
      DivModUnique(d, q, r, p, s);
    }
  }

  // --- Blocks ---

  function SubPacket(data: seq<Byte>, sps: nat, x: nat): (r: seq<Byte>)
    requires sps * x + sps <= |data|
    ensures |r| == sps
  {
    data[sps * x..sps * x + sps]
  }

  // A packet has all its sub-packets. (Otherwise it is dropped.)
  ghost predicate LongEnough(data: seq<Byte>, sps: nat, w: nat)
    requires sps > 0
  {
    sps * SubPackets(sps, w) <= |data|
  }

  // Sub-packet x of a packet is where it belongs.
  ghost predicate InPlace(b: seq<Byte>, data: seq<Byte>, sps: nat, sph: nat, spc: nat, x: nat) {
    sps * x + sps <= |data| && HasAt(b, sps * Slot(sph, spc, x), SubPacket(data, sps, x))
  }

  ghost predicate PacketInPlace(b: seq<Byte>, data: seq<Byte>, sps: nat, sph: nat, spc: nat, n: nat) {
    forall x: nat :: x < n ==> InPlace(b, data, sps, sph, spc, x)
  }

  ghost predicate BlockInPlace(b: seq<Byte>, block: seq<seq<Byte>>, sps: nat, sph: nat, n: nat) {
    forall c: nat :: c < |block| ==> PacketInPlace(b, block[c], sps, sph, c, n)
  }

  // Writing to one slot leaves the others as they were.
  function Written(b: seq<Byte>, dst: nat, data: seq<Byte>): (r: seq<Byte>)
    requires dst + |data| <= |b|
    ensures |r| == |b|
  {
    b[..dst] + data + b[dst + |data|..]
  }

  lemma WrittenElsewhere(b: seq<Byte>, dst: nat, data: seq<Byte>, pos: nat, s: seq<Byte>)
    requires dst + |data| <= |b| && HasAt(b, pos, s) && (pos + |s| <= dst || dst + |data| <= pos)
    ensures HasAt(Written(b, dst, data), pos, s)
  {
    assert Written(b, dst, data)[pos..pos + |s|] == b[pos..pos + |s|];
  }

  lemma WrittenThere(b: seq<Byte>, dst: nat, data: seq<Byte>)
    requires dst + |data| <= |b|
    ensures HasAt(Written(b, dst, data), dst, data)
  {
  }

  // What is behind the used part stays as it was.
  ghost predicate RestIs(b: seq<Byte>, rest: seq<Byte>, used: nat) {
    |b| == |rest| && forall i :: used <= i < |b| ==> b[i] == rest[i]
  }

  lemma RestStays(b: seq<Byte>, rest: seq<Byte>, used: nat, dst: nat, data: seq<Byte>)
    requires RestIs(b, rest, used) && dst + |data| <= used && dst + |data| <= |b|
    ensures RestIs(Written(b, dst, data), rest, used)
  {
  }

  // Different sub-packets do not overlap.
  lemma SlotsApart(sps: nat, sph: nat, n: nat, spc: nat, x: nat, c: nat, y: nat)
    requires spc < sph && c < sph && x < n && y < n && (c != spc || x != y)
    ensures var i := Slot(sph, spc, x);
            var j := Slot(sph, c, y);
            sps * i + sps <= sps * j || sps * j + sps <= sps * i
  {
    hide Slot, PacketOf, Col, Row;
    PlaceOf(sph, n, spc, x);
    PlaceOf(sph, n, c, y);
    var i, j := Slot(sph, spc, x), Slot(sph, c, y);
    if i < j {
      MulLess(sps, i, j);
    } else {
      MulLess(sps, j, i);
    }
  }

  // Another sub-packet stays where it is.
  lemma InPlaceStays(b: seq<Byte>, piece: seq<Byte>, data: seq<Byte>, sps: nat, sph: nat, n: nat,
                     spc: nat, x: nat, c: nat, y: nat)
    requires spc < sph && c < sph && x < n && y < n && (c != spc || x != y) && |piece| == sps
    requires sps * Slot(sph, spc, x) + sps <= |b|
    requires InPlace(b, data, sps, sph, c, y)
    ensures InPlace(Written(b, sps * Slot(sph, spc, x), piece), data, sps, sph, c, y)
  {
    hide Slot, HasAt, Written, PacketOf, Col, Row;
    SlotsApart(sps, sph, n, spc, x, c, y);
    var i, j := Slot(sph, spc, x), Slot(sph, c, y);
    WrittenElsewhere(b, sps * i, piece, sps * j, SubPacket(data, sps, y));
  }

  lemma PacketStays(b: seq<Byte>, piece: seq<Byte>, data: seq<Byte>, sps: nat, sph: nat, n: nat,
                    spc: nat, x: nat, c: nat, m: nat)
    requires spc < sph && c < sph && x < n && m <= n && (c != spc || m <= x) && |piece| == sps
    requires sps * Slot(sph, spc, x) + sps <= |b|
    requires PacketInPlace(b, data, sps, sph, c, m)
    ensures PacketInPlace(Written(b, sps * Slot(sph, spc, x), piece), data, sps, sph, c, m)
  {
    hide Slot, Written, InPlace;
    forall y: nat | y < m ensures InPlace(Written(b, sps * Slot(sph, spc, x), piece), data, sps, sph, c, y) {
      InPlaceStays(b, piece, data, sps, sph, n, spc, x, c, y);
    }
  }

  lemma BlockStays(b: seq<Byte>, piece: seq<Byte>, block: seq<seq<Byte>>, sps: nat, sph: nat, n: nat, x: nat)
    requires |block| < sph && x < n && |piece| == sps
    requires sps * Slot(sph, |block|, x) + sps <= |b|
    requires BlockInPlace(b, block, sps, sph, n)
    ensures BlockInPlace(Written(b, sps * Slot(sph, |block|, x), piece), block, sps, sph, n)
  {
    hide Slot, Written, PacketInPlace;
    forall c: nat | c < |block|
      ensures PacketInPlace(Written(b, sps * Slot(sph, |block|, x), piece), block[c], sps, sph, c, n)
    {
      PacketStays(b, piece, block[c], sps, sph, n, |block|, x, c, n);
    }
  }

  lemma OneMore(b: seq<Byte>, data: seq<Byte>, sps: nat, sph: nat, spc: nat, x: nat)
    requires PacketInPlace(b, data, sps, sph, spc, x) && InPlace(b, data, sps, sph, spc, x)
    ensures PacketInPlace(b, data, sps, sph, spc, x + 1)
  {
  }

  lemma BlockGrows(b: seq<Byte>, block: seq<seq<Byte>>, data: seq<Byte>, sps: nat, sph: nat, n: nat)
    requires BlockInPlace(b, block, sps, sph, n) && PacketInPlace(b, data, sps, sph, |block|, n)
    ensures BlockInPlace(b, block + [data], sps, sph, n)
  {
  }

  // --- The track ---

  datatype AudioPacket = AudioPacket(data: seq<Byte>, pts: real, pos: int, keyframe: bool)

  class Track {
    // (All are read from 16 bits, and none may be 0.)
    const sps: nat
    const sph: nat
    const w: nat
    const audioBuf: array<Byte>
    const audioTimestamp: array<real>
    var subPacketCnt: nat
    var raPts: real
    // The packets of the current block.
    ghost var block: seq<seq<Byte>>
    // The timestamps of these packets, and that of the packet before them.
    ghost var times: seq<real>
    ghost var before: real
    // What the buffer held when it was allocated; nothing clears it.
    ghost const memory: seq<Byte>

    ghost predicate Valid()
      reads this, audioBuf, audioTimestamp
    {
      && 0 < sps < 65536 && 0 < sph < 65536 && 0 < w < 65536
      && audioBuf.Length == sph * w && audioTimestamp.Length == sph
      && |block| == subPacketCnt < sph
      && BlockInPlace(audioBuf[..], block, sps, sph, SubPackets(sps, w))
      && RestIs(audioBuf[..], memory, Used(sps, sph, w))
      && |times| == |block| && IsStamped(audioTimestamp[..], before, times)
      && raPts == (if times == [] then before else times[|times| - 1])
    }

    constructor (sps: nat, sph: nat, w: nat, memory: seq<Byte>)
      requires 0 < sps < 65536 && 0 < sph < 65536 && 0 < w < 65536 && |memory| == sph * w
      ensures Valid() && fresh(audioBuf) && fresh(audioTimestamp)
      ensures this.sps == sps && this.sph == sph && this.w == w && block == [] && this.memory == memory
      ensures times == [] && before == 0.0
    {
      this.sps, this.sph, this.w := sps, sph, w;
      this.memory := memory;
      audioBuf := new Byte[sph * w](i requires 0 <= i < |memory| => memory[i]);
      audioTimestamp := new real[sph](_ => 0.0);
      subPacketCnt, raPts := 0, 0.0;
      block, times, before := [], [], 0.0;
    }

    // memcpy()
    method CopySubPacket(data: seq<Byte>, src: nat, dst: nat)
      requires src + sps <= |data| && dst + sps <= audioBuf.Length
      modifies audioBuf
      ensures audioBuf[..] == Written(old(audioBuf[..]), dst, data[src..src + sps])
    {
      forall i | 0 <= i < sps {
        audioBuf[dst + i] := data[src + i];
      }
    }

    // The cook branch of handle_realaudio(): fails if the packet is too short.
    method Reorder(data: seq<Byte>) returns (ok: bool)
      requires Valid()
      modifies audioBuf
      ensures Valid()
      ensures ok <==> LongEnough(data, sps, w)
      ensures ok ==> BlockInPlace(audioBuf[..], block + [data], sps, sph, SubPackets(sps, w))
    {
      hide Slot, BlockInPlace, PacketInPlace, InPlace, Written, HasAt, U32, RestIs;
      var spc := subPacketCnt;
      var n := SubPackets(sps, w);
      var x := 0;
      NoneInPlace(audioBuf[..], data, sps, sph, spc);
      while x < n
        invariant 0 <= x <= n
        invariant sps * x <= |data|
        invariant BlockInPlace(audioBuf[..], block, sps, sph, n)
        invariant PacketInPlace(audioBuf[..], data, sps, sph, spc, x)
        invariant RestIs(audioBuf[..], memory, Used(sps, sph, w))
      {
        SlotInBuffer(sps, sph, w, spc, x);
        NoWrap(sps, sph, w, spc, x);
        var dst := U32(sps * Slot(sph, spc, x));
        // (The code checks this.)
        assert dst + sps <= audioBuf.Length;
        var src := U32(sps * x);
        if src + sps > |data| {
          return false;
        }
        ghost var b := audioBuf[..];
        CopySubPacket(data, src, dst);
        RestStays(b, memory, Used(sps, sph, w), dst, data[src..src + sps]);
        BlockStays(b, data[src..src + sps], block, sps, sph, n, x);
        PacketStays(b, data[src..src + sps], data, sps, sph, n, spc, x, spc, x);
        NowInPlace(b, data, sps, sph, spc, x);
        OneMore(audioBuf[..], data, sps, sph, spc, x);
        x := x + 1;
      }
      BlockGrows(audioBuf[..], block, data, sps, sph, n);
      ok := true;
    }

    // handle_realaudio(): the packets to be put out.
    method HandlePacket(data: seq<Byte>, pts: real, pos: int) returns (out: seq<AudioPacket>)
      requires Valid()
      modifies this`subPacketCnt, this`raPts, this`block, this`times, this`before, audioBuf, audioTimestamp
      ensures Valid()
      ensures !LongEnough(data, sps, w) ==>
                out == [] && block == old(block) && times == old(times) && before == old(before)
      ensures LongEnough(data, sps, w) && |old(block)| + 1 < sph ==>
                out == [] && block == old(block) + [data] && times == old(times) + [pts] && before == old(before)
      ensures LongEnough(data, sps, w) && |old(block)| + 1 == sph ==>
                && block == [] && times == [] && before == pts
                && IsReordered(out, old(block) + [data], memory, sps, sph, w, pos)
                && IsTimed(out, old(before), old(times) + [pts], sps, w)
    {
      hide Slot, BlockInPlace, IsReordered, LongEnough, SubPackets, RestIs, Used, IsTimed, IsStamped, Stamp;
      var ok := Reorder(data);
      if !ok {
        return [];
      }
      audioTimestamp[subPacketCnt] := if raPts == pts then 0.0 else pts;
      StampNext(old(audioTimestamp[..]), audioTimestamp[..], before, times, raPts, pts);
      raPts := pts;
      block, times := block + [data], times + [pts];
      out := Advance(pos);
    }

    method Advance(pos: int) returns (out: seq<AudioPacket>)
      requires 0 < sps < 65536 && 0 < sph < 65536 && 0 < w < 65536
      requires audioBuf.Length == sph * w && audioTimestamp.Length == sph
      requires |block| == subPacketCnt + 1 <= sph
      requires BlockInPlace(audioBuf[..], block, sps, sph, SubPackets(sps, w))
      requires RestIs(audioBuf[..], memory, Used(sps, sph, w))
      requires |times| == |block| && IsStamped(audioTimestamp[..], before, times) && raPts == times[|times| - 1]
      modifies this`subPacketCnt, this`block, this`times, this`before
      ensures Valid()
      ensures |old(block)| < sph ==> out == [] && block == old(block) && times == old(times) && before == old(before)
      ensures |old(block)| == sph ==>
                && block == [] && times == [] && before == raPts
                && IsReordered(out, old(block), memory, sps, sph, w, pos)
                && IsTimed(out, old(before), old(times), sps, w)
    {
      hide BlockInPlace, IsReordered, SubPackets, RestIs, Used, IsTimed;
      subPacketCnt := subPacketCnt + 1;
      out := [];
      if subPacketCnt == sph {
        subPacketCnt := 0;
        out := PutOut(pos);
        NoBlock(audioBuf[..], sps, sph, SubPackets(sps, w));
        block, times, before := [], [], raPts;
      }
    }

    // All packets of a block that is complete.
    method PutOut(pos: int) returns (out: seq<AudioPacket>)
      requires 0 < sps && 0 < sph == |block| && 0 < w
      requires audioBuf.Length == sph * w && audioTimestamp.Length == sph
      requires BlockInPlace(audioBuf[..], block, sps, sph, SubPackets(sps, w))
      requires RestIs(audioBuf[..], memory, Used(sps, sph, w))
      requires |times| == |block| && IsStamped(audioTimestamp[..], before, times)
      ensures IsReordered(out, block, memory, sps, sph, w, pos)
      ensures IsTimed(out, before, times, sps, w)
    {
      hide BlockInPlace, HasSubPacket, SubPackets, RestIs, Used, HasMemory, Stamp, HasStamp;
      var size := sps;
      SlotsFit(sps, sph, w);
      out := [];
      if size > sph * w {
        return;
      }
      while |out| < sph * w / size
        invariant |out| <= sph * w / size
        invariant forall k :: 0 <= k < |out| ==> out[k].pos == pos + k && (out[k].keyframe <==> k == 0)
        invariant forall k: nat :: k < |out| && k < sph * SubPackets(sps, w) ==> HasSubPacket(out[k].data, block, sps, sph, k)
        invariant forall k: nat :: sph * SubPackets(sps, w) <= k < |out| ==> HasMemory(out[k].data, memory, sps, k)
        invariant IsTimed(out, before, times, sps, w)
      {
        var x := |out|;
        OutputInBuffer(sps, sph, w, x);
        var data := audioBuf[x * size..x * size + size];
        if x < sph * SubPackets(sps, w) {
          OutputIsSubPacket(audioBuf[..], block, sps, sph, SubPackets(sps, w), x);
        } else {
          OutputIsMemory(audioBuf[..], memory, sps, sph, w, x);
        }
        var pts := if x * size % w != 0 then NOPTS else audioTimestamp[x * size / w];
        TimeNext(out, AudioPacket(data, pts, pos + x, x == 0), before, times, sps, w);
        out := out + [AudioPacket(data, pts, pos + x, x == 0)];
      }
    }
  }

  // What is put out for a block: all sub-packets in order, and behind them what
  // the memory of the buffer happened to hold.
  ghost predicate IsReordered(out: seq<AudioPacket>, block: seq<seq<Byte>>, memory: seq<Byte>,
                              sps: nat, sph: nat, w: nat, pos: int)
    requires sps > 0
  {
    && |out| == sph * w / sps >= sph * SubPackets(sps, w)
    && (forall k :: 0 <= k < |out| ==> out[k].pos == pos + k && (out[k].keyframe <==> k == 0))
    && (forall k: nat :: k < sph * SubPackets(sps, w) ==> HasSubPacket(out[k].data, block, sps, sph, k))
    && forall k: nat :: sph * SubPackets(sps, w) <= k < |out| ==> HasMemory(out[k].data, memory, sps, k)
  }

  // The timestamp kept for packet m of a block: none is repeated.
  function Stamp(before: real, times: seq<real>, m: nat): real
    requires m < |times|
  {
    if times[m] == (if m == 0 then before else times[m - 1]) then 0.0 else times[m]
  }

  ghost predicate IsStamped(stamps: seq<real>, before: real, times: seq<real>) {
    |times| <= |stamps| && forall m :: 0 <= m < |times| ==> stamps[m] == Stamp(before, times, m)
  }

  lemma StampNext(stamps: seq<real>, stamps': seq<real>, before: real, times: seq<real>, last: real, pts: real)
    requires IsStamped(stamps, before, times) && |times| < |stamps|
    requires stamps' == stamps[|times| := if last == pts then 0.0 else pts]
    requires last == if times == [] then before else times[|times| - 1]
    ensures IsStamped(stamps', before, times + [pts])
  {
  }

  // What is put out as number k begins with packet m of the block.
  predicate BeginsPacket(k: nat, m: nat, sps: nat, w: nat) {
    k * sps == m * w
  }

  // Just these get the timestamps of the packets they begin with.
  ghost predicate HasStamp(p: AudioPacket, k: nat, before: real, times: seq<real>, sps: nat, w: nat) {
    && (forall m: nat :: BeginsPacket(k, m, sps, w) ==> m < |times| && p.pts == Stamp(before, times, m))
    && ((forall m: nat :: !BeginsPacket(k, m, sps, w)) ==> p.pts == NOPTS)
  }

  ghost predicate IsTimed(out: seq<AudioPacket>, before: real, times: seq<real>, sps: nat, w: nat) {
    forall k: nat :: k < |out| ==> HasStamp(out[k], k, before, times, sps, w)
  }

  lemma BeginsIff(k: nat, m: nat, sps: nat, w: nat)
    requires w > 0
    ensures BeginsPacket(k, m, sps, w) <==> k * sps % w == 0 && m == k * sps / w
  {
    var x := k * sps;
    assert x == x / w * w + x % w;
    if x == m * w && m < x / w {
      MulLess(w, m, x / w);
    } else if x == m * w && m > x / w {
      MulLess(w, x / w, m);
    }
  }

  lemma StampIs(p: AudioPacket, k: nat, before: real, times: seq<real>, sps: nat, w: nat)
    requires w > 0 && k * sps / w < |times|
    requires p.pts == if k * sps % w != 0 then NOPTS else Stamp(before, times, k * sps / w)
    ensures HasStamp(p, k, before, times, sps, w)
  {
    hide Stamp, BeginsPacket;
    forall m: nat
      ensures BeginsPacket(k, m, sps, w) <==> k * sps % w == 0 && m == k * sps / w
    {
      BeginsIff(k, m, sps, w);
    }
    BeginsIff(k, k * sps / w, sps, w);
  }

  lemma TimeNext(out: seq<AudioPacket>, p: AudioPacket, before: real, times: seq<real>, sps: nat, w: nat)
    requires IsTimed(out, before, times, sps, w) && w > 0 && |out| * sps / w < |times|
    requires p.pts == if |out| * sps % w != 0 then NOPTS else Stamp(before, times, |out| * sps / w)
    ensures IsTimed(out + [p], before, times, sps, w)
  {
    StampIs(p, |out|, before, times, sps, w);
    hide HasStamp;
  }

  // The data is not from any packet.
  ghost predicate HasMemory(data: seq<Byte>, memory: seq<Byte>, sps: nat, k: nat) {
    k * sps + sps <= |memory| && data == memory[k * sps..k * sps + sps]
  }

  lemma OutputIsMemory(b: seq<Byte>, memory: seq<Byte>, sps: nat, sph: nat, w: nat, k: nat)
    requires 0 < sps && RestIs(b, memory, Used(sps, sph, w)) && sph * SubPackets(sps, w) <= k && k * sps + sps <= |b|
    ensures HasMemory(b[k * sps..k * sps + sps], memory, sps, k)
  {
    MulAtMost(sps, sph * SubPackets(sps, w), k);
    assert Used(sps, sph, w) <= k * sps;
    hide Used;
    var x, y := b[k * sps..k * sps + sps], memory[k * sps..k * sps + sps];
    assert forall i :: 0 <= i < |x| ==> x[i] == y[i];
  }

  // The data is the sub-packet that belongs to slot k.
  ghost predicate HasSubPacket(data: seq<Byte>, block: seq<seq<Byte>>, sps: nat, sph: nat, k: nat) {
    && 0 < sph && PacketOf(sph, Col(sph, k)) < |block|
    && sps * Row(sph, k) + sps <= |block[PacketOf(sph, Col(sph, k))]|
    && data == SubPacket(block[PacketOf(sph, Col(sph, k))], sps, Row(sph, k))
  }

  lemma OutputIsSubPacket(b: seq<Byte>, block: seq<seq<Byte>>, sps: nat, sph: nat, n: nat, k: nat)
    requires 0 < sph == |block| && k < sph * n && BlockInPlace(b, block, sps, sph, n)
    ensures k * sps + sps <= |b| && HasSubPacket(b[k * sps..k * sps + sps], block, sps, sph, k)
  {
    hide Slot, PacketOf;
    SlotOf(sph, n, k);
    var c := PacketOf(sph, Col(sph, k));
    assert PacketInPlace(b, block[c], sps, sph, c, n);
    assert InPlace(b, block[c], sps, sph, c, Row(sph, k));
  }

  lemma NoBlock(b: seq<Byte>, sps: nat, sph: nat, n: nat)
    ensures BlockInPlace(b, [], sps, sph, n)
  {
  }

  lemma SlotsFit(sps: nat, sph: nat, w: nat)
    requires 0 < sps
    ensures sph * w / sps >= sph * SubPackets(sps, w)
  {
    var n, q := w / sps, sph * w / sps;
    MulAtMost(sph, sps * n, w);
    assert sph * (sps * n) == sps * (sph * n);
    if q < sph * n {
      MulLess(sps, q, sph * n);
    }
  }

  lemma OutputInBuffer(sps: nat, sph: nat, w: nat, x: nat)
    requires 0 < sps && 0 < w && x < sph * w / sps
    ensures x * sps + sps <= sph * w && x * sps / w < sph
  {
    var q := sph * w / sps;
    MulLess(sps, x, q);
    assert sps * q <= sph * w;
    if x * sps / w >= sph {
      MulAtMost(w, sph, x * sps / w);
    }
  }

  lemma NoneInPlace(b: seq<Byte>, data: seq<Byte>, sps: nat, sph: nat, spc: nat)
    ensures PacketInPlace(b, data, sps, sph, spc, 0)
  {
  }

  lemma NowInPlace(b: seq<Byte>, data: seq<Byte>, sps: nat, sph: nat, spc: nat, x: nat)
    requires sps * x + sps <= |data| && sps * Slot(sph, spc, x) + sps <= |b|
    ensures InPlace(Written(b, sps * Slot(sph, spc, x), SubPacket(data, sps, x)), data, sps, sph, spc, x)
  {
    WrittenThere(b, sps * Slot(sph, spc, x), SubPacket(data, sps, x));
  }
}
