// Matroska block lacing: one block that holds several frames (section 10.3 of
// RFC 9559).

module Lacing {
  import opened Bytes
  import opened Wrappers

  const TWO64: nat := 0x1_0000_0000_0000_0000
  const MAX_LACE_SIZE: nat := 0x4000_0000

  // A number or sizes that were read, and where reading stopped.
  datatype Num = BadNum | Num(value: int, pos: nat)
  datatype Sizes = BadSizes | Sizes(sizes: seq<nat>, pos: nat)

  function Sum(s: seq<nat>): nat {
    if s == [] then 0 else s[0] + Sum(s[1..])
  }

  function Concat(frames: seq<seq<Byte>>): seq<Byte> {
    if frames == [] then [] else frames[0] + Concat(frames[1..])
  }

  function Lengths(frames: seq<seq<Byte>>): (r: seq<nat>)
    ensures |r| == |frames|
  {
    if frames == [] then [] else [|frames[0]|] + Lengths(frames[1..])
  }

  // --- EBML numbers ---

  function Pow2(n: nat): (r: nat)
    ensures r > 0
  {
    if n == 0 then 1 else 2 * Pow2(n - 1)
  }

  // The first bit of b that is set, counted from the top.
  function FirstBit(b: Byte, i: nat): (r: nat)
    requires i <= 8
    ensures i <= r <= 8
    decreases 8 - i
  {
    if i == 8 || b / Pow2(7 - i) % 2 == 1 then i else FirstBit(b, i + 1)
  }

  function BigEndian(high: nat, s: seq<Byte>): nat
    decreases |s|
  {
    if s == [] then high else BigEndian(high * 256 + s[0], s[1..])
  }

  predicate AllOnes(s: seq<Byte>) {
    forall i :: 0 <= i < |s| ==> s[i] == 255
  }

  // ebml_read_length()
  function ReadLength(b: seq<Byte>, pos: nat): (r: Num)
    ensures r.Num? ==> r.value >= 0 && pos < r.pos <= |b|
  {
    if pos >= |b| then BadNum
    else
      var i := FirstBit(b[pos], 0);
      if i >= 8 || pos + 1 + i > |b| then BadNum
      else
        var mask := Pow2(7 - i);
        var rest := b[pos + 1..pos + 1 + i];
        if b[pos] % mask == mask - 1 && AllOnes(rest) then BadNum
        else Num(BigEndian(b[pos] % mask, rest), pos + 1 + i)
  }

  // ebml_read_signed_length()
  function ReadSignedLength(b: seq<Byte>, pos: nat): (r: Num)
    ensures r.Num? ==> pos < r.pos <= |b|
  {
    var n := ReadLength(b, pos);
    if n.BadNum? then BadNum else Num(n.value - (Pow2(7 * (n.pos - pos) - 1) - 1), n.pos)
  }

  // --- Decoding ---

  function ReadXiphSize(b: seq<Byte>, pos: nat, endpos: nat): (r: Num)
    ensures r.Num? ==> r.value >= 0 && pos < r.pos < endpos && r.pos <= |b|
    decreases |b| - pos
  {
    if pos >= |b| || pos + 1 >= endpos then BadNum
    else if b[pos] != 255 then Num(b[pos], pos + 1)
    else
      var n := ReadXiphSize(b, pos + 1, endpos);
      if n.BadNum? then BadNum else Num(U32(255 + n.value), n.pos)
  }

  function XiphSizes(b: seq<Byte>, pos: nat, endpos: nat, n: nat): (r: Sizes)
    ensures r.Sizes? ==> |r.sizes| == n && pos <= r.pos
    ensures r.Sizes? && n > 0 ==> r.pos < endpos && r.pos <= |b|
    decreases n
  {
    if n == 0 then Sizes([], pos)
    else
      var size := ReadXiphSize(b, pos, endpos);
      if size.BadNum? then BadSizes
      else
        var rest := XiphSizes(b, size.pos, endpos, n - 1);
        if rest.BadSizes? then BadSizes else Sizes([size.value] + rest.sizes, rest.pos)
  }

  function EbmlSizes(b: seq<Byte>, pos: nat, endpos: nat, prev: nat, n: nat): (r: Sizes)
    ensures r.Sizes? ==> |r.sizes| == n && pos <= r.pos
    ensures r.Sizes? && n > 0 ==> r.pos < endpos && r.pos <= |b|
    decreases n
  {
    if n == 0 then Sizes([], pos)
    else
      var diff := ReadSignedLength(b, pos);
      if diff.BadNum? || diff.pos >= endpos then BadSizes
      else
        var size := U32(prev + diff.value);
        var rest := EbmlSizes(b, diff.pos, endpos, size, n - 1);
        if rest.BadSizes? then BadSizes else Sizes([size] + rest.sizes, rest.pos)
  }

  // The size of the last lace: all that remains, in 32 bits.
  function LastSize(pos: nat, endpos: nat, total: nat): nat {
    U32(U32(endpos - pos) - U32(total))
  }

  function XiphLaces(b: seq<Byte>, pos: nat, endpos: nat, laces: nat): (r: Sizes)
    requires laces > 0
    ensures r.Sizes? ==> pos <= r.pos && |r.sizes| == laces
  {
    var s := XiphSizes(b, pos, endpos, laces - 1);
    if s.BadSizes? then BadSizes else Sizes(s.sizes + [LastSize(s.pos, endpos, Sum(s.sizes))], s.pos)
  }

  function FixedLaces(pos: nat, endpos: nat, laces: nat): (r: Sizes)
    requires laces > 0
    ensures r.Sizes? && pos == r.pos && |r.sizes| == laces
  {
    Sizes(seq(laces, _ => U32(endpos - pos) / laces), pos)
  }

  function EbmlLaces(b: seq<Byte>, pos: nat, endpos: nat, laces: nat): (r: Sizes)
    requires laces > 0
    ensures r.Sizes? ==> pos <= r.pos && |r.sizes| == laces
  {
    var first := ReadLength(b, pos);
    if first.BadNum? || first.pos >= endpos then BadSizes
    else
      var size := U32(first.value);
      var s := EbmlSizes(b, first.pos, endpos, size, if laces > 2 then laces - 2 else 0);
      if s.BadSizes? then BadSizes
      else
        var last := LastSize(s.pos, endpos, size + Sum(s.sizes));
        Sizes(if laces == 1 then [last] else [size] + s.sizes + [last], s.pos)
  }

  // The sizes of the laces, and where the first one starts.
  function LaceSizes(kind: nat, b: seq<Byte>, pos: nat, endpos: nat): (r: Sizes)
    ensures r.Sizes? ==> pos <= r.pos && (kind > 0 ==> pos < |b| && |r.sizes| == b[pos] as int + 1)
  {
    if kind == 0 then Sizes([U32(endpos - pos)], pos)
    else if pos >= |b| || pos + 1 > endpos then BadSizes
    else
      var laces: nat := b[pos] as int + 1;
      match kind
      case 1 => XiphLaces(b, pos + 1, endpos, laces)
      case 2 => FixedLaces(pos + 1, endpos, laces)
      case 3 => EbmlLaces(b, pos + 1, endpos, laces)
      case _ => BadSizes
  }

  // The laces at pos, which have to end at endpos.
  function Cut(b: seq<Byte>, pos: nat, endpos: nat, sizes: seq<nat>): Option<seq<seq<Byte>>>
    decreases |sizes|
  {
    if sizes == [] then
      if pos == endpos then Some([]) else None
    else if pos + sizes[0] > endpos || sizes[0] > MAX_LACE_SIZE || pos + sizes[0] > |b| then None
    else
      var rest := Cut(b, pos + sizes[0], endpos, sizes[1..]);
      Prepend([b[pos..pos + sizes[0]]], rest)
  }

  function Decode(kind: nat, b: seq<Byte>, pos: nat, endpos: nat): Option<seq<seq<Byte>>> {
    var s := LaceSizes(kind, b, pos, endpos);
    if s.BadSizes? then None else Cut(b, s.pos, endpos, s.sizes)
  }

  ghost predicate Fit(sizes: seq<nat>) {
    forall i :: 0 <= i < |sizes| ==> sizes[i] < TWO32
  }

  ghost predicate SizesOk(frames: seq<seq<Byte>>) {
    forall i :: 0 <= i < |frames| ==> |frames[i]| <= MAX_LACE_SIZE
  }

  // --- What was decoded is all there is ---

  lemma {:induction false} CutCovers(b: seq<Byte>, pos: nat, endpos: nat, sizes: seq<nat>)
    requires Cut(b, pos, endpos, sizes).Some?
    ensures var laces := Cut(b, pos, endpos, sizes).value;
            && Lengths(laces) == sizes
            && (sizes != [] ==> pos <= endpos <= |b|) && (sizes == [] ==> pos == endpos)
            && (pos <= endpos <= |b| ==> Concat(laces) == b[pos..endpos])
            && SizesOk(laces)
    decreases |sizes|
  {
    if sizes != [] {
      CutCovers(b, pos + sizes[0], endpos, sizes[1..]);
      var rest := Cut(b, pos + sizes[0], endpos, sizes[1..]).value;
      var laces := Cut(b, pos, endpos, sizes).value;
      assert laces[1..] == rest;
      assert b[pos..endpos] == b[pos..pos + sizes[0]] + b[pos + sizes[0]..endpos];
    }
  }

  // Wrap-around in the sizes never goes unnoticed: decoded laces are exactly
  // the bytes from the end of the lacing header to the end of the block.
  lemma LacesCoverBlock(kind: nat, b: seq<Byte>, pos: nat, endpos: nat)
    requires Decode(kind, b, pos, endpos).Some?
    ensures var laces := Decode(kind, b, pos, endpos).value;
            var start := LaceSizes(kind, b, pos, endpos).pos;
            && pos <= start <= endpos <= |b| && (kind > 0 ==> pos < endpos)
            && |laces| == (if kind == 0 then 1 else b[pos] as int + 1)
            && Concat(laces) == b[start..endpos]
            && SizesOk(laces)
  {
    var s := LaceSizes(kind, b, pos, endpos);
    CutCovers(b, s.pos, endpos, s.sizes);
  }

  // A block without lacing is one lace, unless it is too large or does not fit.
  lemma NoLacingIff(b: seq<Byte>, pos: nat, endpos: nat)
    requires pos <= endpos
    ensures Decode(0, b, pos, endpos)
            == if endpos <= |b| && endpos - pos <= MAX_LACE_SIZE then Some([b[pos..endpos]]) else None
  {
    var size := U32(endpos - pos);
    var sizes: seq<nat> := [size];
    assert sizes[1..] == [];
    assert Cut(b, pos + size, endpos, []) == if pos + size == endpos then Some([]) else None;
    assert LaceSizes(0, b, pos, endpos) == Sizes(sizes, pos);
    if endpos <= |b| {
      assert [b[pos..endpos]] + [] == [b[pos..endpos]];
    }
  }

  // --- Encoding ---

  lemma {:induction false} CutInverts(b: seq<Byte>, pos: nat, frames: seq<seq<Byte>>)
    requires HasAt(b, pos, Concat(frames))
    requires SizesOk(frames)
    ensures Cut(b, pos, pos + |Concat(frames)|, Lengths(frames)) == Some(frames)
    decreases |frames|
  {
    hide HasAt, SizesOk;
    if frames != [] {
      HasParts(b, pos, frames[0], Concat(frames[1..]));
      HasSlice(b, pos, frames[0]);
      RestOk(frames);
      CutInverts(b, pos + |frames[0]|, frames[1..]);
      hide Concat;
      CutFirst(b, pos, pos + |frames[0]| + |Concat(frames[1..])|, frames);
    }
  }

  lemma RestOk(frames: seq<seq<Byte>>)
    requires SizesOk(frames) && frames != []
    ensures SizesOk(frames[1..]) && |frames[0]| <= MAX_LACE_SIZE
  {
  }

  lemma CutFirst(b: seq<Byte>, pos: nat, endpos: nat, frames: seq<seq<Byte>>)
    requires frames != [] && |frames[0]| <= MAX_LACE_SIZE
    requires pos + |frames[0]| <= endpos && pos + |frames[0]| <= |b| && b[pos..pos + |frames[0]|] == frames[0]
    requires Cut(b, pos + |frames[0]|, endpos, Lengths(frames[1..])) == Some(frames[1..])
    ensures Cut(b, pos, endpos, Lengths(frames)) == Some(frames)
  {
    assert Lengths(frames)[1..] == Lengths(frames[1..]);
    assert [frames[0]] + frames[1..] == frames;
  }

  lemma {:induction false} ConcatLength(frames: seq<seq<Byte>>)
    ensures |Concat(frames)| == Sum(Lengths(frames))
    decreases |frames|
  {
    if frames != [] {
      ConcatLength(frames[1..]);
      assert Lengths(frames)[1..] == Lengths(frames[1..]);
    }
  }

  function XiphSize(n: nat): (r: seq<Byte>)
    ensures |r| > 0
  {
    if n < 255 then [n] else [255] + XiphSize(n - 255)
  }

  function XiphHeader(sizes: seq<nat>): seq<Byte> {
    if sizes == [] then [] else XiphSize(sizes[0]) + XiphHeader(sizes[1..])
  }

  function EncodeXiph(frames: seq<seq<Byte>>): seq<Byte>
    requires 1 <= |frames| <= 256
  {
    [|frames| - 1] + XiphHeader(Lengths(frames[..|frames| - 1])) + Concat(frames)
  }

  lemma {:induction false} XiphSizeInverts(b: seq<Byte>, pos: nat, endpos: nat, n: nat)
    requires HasAt(b, pos, XiphSize(n))
    ensures var end := pos + |XiphSize(n)|;
            ReadXiphSize(b, pos, endpos) == if end < endpos then Num(U32(n), end) else BadNum
    decreases n
  {
    HasByte(b, pos, XiphSize(n), 0);
    if n >= 255 {
      HasParts(b, pos, [255], XiphSize(n - 255));
      XiphSizeInverts(b, pos + 1, endpos, n - 255);
    }
  }

  lemma {:induction false} XiphSizesInvert(b: seq<Byte>, pos: nat, endpos: nat, sizes: seq<nat>)
    requires HasAt(b, pos, XiphHeader(sizes)) && Fit(sizes)
    ensures var end := pos + |XiphHeader(sizes)|;
            XiphSizes(b, pos, endpos, |sizes|) == if sizes == [] || end < endpos then Sizes(sizes, end) else BadSizes
    decreases |sizes|
  {
    hide HasAt, XiphSize, ReadXiphSize;
    if sizes != [] {
      HasParts(b, pos, XiphSize(sizes[0]), XiphHeader(sizes[1..]));
      XiphSizeInverts(b, pos, endpos, sizes[0]);
      XiphSizesInvert(b, pos + |XiphSize(sizes[0])|, endpos, sizes[1..]);
      assert [sizes[0]] + sizes[1..] == sizes;
    }
  }

  lemma LastSizeIs(pos: nat, endpos: nat, total: nat, last: nat)
    requires endpos - pos == total + last && last < TWO32
    ensures LastSize(pos, endpos, total) == last
  {
  }

  lemma {:induction false} LengthsSplit(frames: seq<seq<Byte>>)
    requires frames != []
    ensures Lengths(frames) == Lengths(frames[..|frames| - 1]) + [|frames[|frames| - 1]|]
    ensures Sum(Lengths(frames)) == Sum(Lengths(frames[..|frames| - 1])) + |frames[|frames| - 1]|
    decreases |frames|
  {
    if |frames| > 1 {
      LengthsSplit(frames[1..]);
      assert frames[1..][..|frames| - 2] == frames[..|frames| - 1][1..];
      assert Lengths(frames)[1..] == Lengths(frames[1..]);
      var init := Lengths(frames[..|frames| - 1]);
      assert init[1..] == Lengths(frames[..|frames| - 1][1..]);
    }
  }

  lemma LengthsSmall(frames: seq<seq<Byte>>)
    requires frames != [] && SizesOk(frames)
    ensures |frames[|frames| - 1]| <= MAX_LACE_SIZE
    ensures Fit(Lengths(frames[..|frames| - 1]))
  {
    LengthsAt(frames[..|frames| - 1]);
  }

  function EncodeFixed(frames: seq<seq<Byte>>): seq<Byte>
    requires 1 <= |frames| <= 256
  {
    [|frames| - 1] + Concat(frames)
  }

  lemma {:induction false} SameLengths(frames: seq<seq<Byte>>, size: nat)
    requires forall i :: 0 <= i < |frames| ==> |frames[i]| == size
    ensures Lengths(frames) == seq(|frames|, _ => size) && |Concat(frames)| == |frames| * size
    decreases |frames|
  {
    if frames != [] {
      SameLengths(frames[1..], size);
      assert |frames| * size == size + (|frames| - 1) * size;
    }
  }

  lemma Quotient(n: nat, r: nat, size: nat)
    requires n >= 1
    ensures r == n * size ==> r / n == size
    ensures r < n * size ==> r / n < size
  {
    var q := r / n;
    assert n * q <= r < n * q + n;
    if q < size {
      assert n * (q + 1) <= n * size;
    } else if q > size {
      assert n * q >= n * (size + 1);
    }
  }

  lemma FixedSize(n: nat, size: nat)
    requires n >= 1
    ensures n * size < TWO32 ==> U32(n * size) / n == size
    ensures n * size >= TWO32 ==> U32(n * size) / n < size
  {
    Quotient(n, U32(n * size), size);
  }

  // Frames of the same size are decoded as they were encoded, exactly if none
  // is too large and all together are less than 4 GiB.
  lemma FixedRoundTripIff(b: seq<Byte>, pos: nat, frames: seq<seq<Byte>>, size: nat)
    requires 1 <= |frames| <= 256 && HasAt(b, pos, EncodeFixed(frames))
    requires forall i :: 0 <= i < |frames| ==> |frames[i]| == size
    ensures Decode(2, b, pos, pos + |EncodeFixed(frames)|) == Some(frames) <==>
            size <= MAX_LACE_SIZE && |frames| * size < TWO32
  {
    hide HasAt, Cut, Concat, U32;
    var n := |frames|;
    var endpos := pos + |EncodeFixed(frames)|;
    HasParts(b, pos, [n - 1], Concat(frames));
    HasByte(b, pos, [n - 1], 0);
    SameLengths(frames, size);
    FixedSize(n, size);
    var sizes := seq(n, _ => U32(n * size) / n);
    assert LaceSizes(2, b, pos, endpos) == Sizes(sizes, pos + 1);
    if Decode(2, b, pos, endpos) == Some(frames) {
      LacesCoverBlock(2, b, pos, endpos);
      CutCovers(b, pos + 1, endpos, sizes);
      assert sizes[0] == Lengths(frames)[0];
      assert |frames[0]| <= MAX_LACE_SIZE;
    }
    if size <= MAX_LACE_SIZE && n * size < TWO32 {
      CutInverts(b, pos + 1, frames);
    }
  }

  lemma {:induction false} LengthsAt(frames: seq<seq<Byte>>)
    ensures forall i :: 0 <= i < |frames| ==> Lengths(frames)[i] == |frames[i]|
    decreases |frames|
  {
    if frames != [] {
      LengthsAt(frames[1..]);
    }
  }

  // Xiph lacing is decoded as it was encoded, exactly if no frame is too large
  // and, unless there is just one, not all frames are empty.
  lemma XiphRoundTripIff(b: seq<Byte>, pos: nat, frames: seq<seq<Byte>>)
    requires 1 <= |frames| <= 256 && HasAt(b, pos, EncodeXiph(frames))
    ensures Decode(1, b, pos, pos + |EncodeXiph(frames)|) == Some(frames) <==>
            SizesOk(frames) && (|frames| == 1 || Concat(frames) != [])
  {
    hide HasAt, XiphHeader, XiphSizes, Lengths, Cut, Concat, Sum, SizesOk, Fit, LastSize;
    var n := |frames|;
    var init := frames[..n - 1];
    var endpos := pos + |EncodeXiph(frames)|;
    var header := XiphHeader(Lengths(init));
    HasParts(b, pos, [n - 1] + header, Concat(frames));
    HasParts(b, pos, [n - 1], header);
    HasByte(b, pos, [n - 1], 0);
    if Decode(1, b, pos, endpos) == Some(frames) {
      LacesCoverBlock(1, b, pos, endpos);
    }
    if SizesOk(frames) {
      LengthsSmall(frames);
      XiphSizesInvert(b, pos + 1, endpos, Lengths(init));
      ConcatLength(frames);
      LengthsSplit(frames);
      var start := pos + 1 + |header|;
      LastSizeIs(start, endpos, Sum(Lengths(init)), |frames[n - 1]|);
      CutInverts(b, start, frames);
    }
  }

  // --- EBML lacing ---

  function Pow256(n: nat): (r: nat)
    ensures r > 0
  {
    if n == 0 then 1 else 256 * Pow256(n - 1)
  }

  lemma DivBound(v: nat, d: nat, n: nat)
    requires d > 0 && v < n * d
    ensures v / d < n && v == v / d * d + v % d
  {
  }

  function Quot(v: nat, p: nat, n: nat): (r: nat)
    requires p > 0 && v < n * p
    ensures r < n
  {
    DivBound(v, p, n);
    v / p
  }

  function Rest(v: nat, p: nat): (r: nat)
    requires p > 0
    ensures r < p
  {
    v % p
  }

  // The n digits of v, the most significant one first.
  function Digits(v: nat, n: nat): (r: seq<Byte>)
    requires v < Pow256(n)
    ensures |r| == n
  {
    if n == 0 then []
    else
      var p := Pow256(n - 1);
      [Quot(v, p, 256)] + Digits(Rest(v, p), n - 1)
  }

  lemma {:induction false} DigitsInvert(high: nat, v: nat, n: nat)
    requires v < Pow256(n)
    ensures BigEndian(high, Digits(v, n)) == high * Pow256(n) + v
    decreases n
  {
    hide Quot, Rest;
    if n > 0 {
      var p := Pow256(n - 1);
      var q, r := Quot(v, p, 256), Rest(v, p);
      QuotRest(v, p);
      DigitsInvert(high * 256 + q, r, n - 1);
      assert Digits(v, n)[1..] == Digits(r, n - 1);
      Distribute(high, q, p);
    }
  }

  lemma QuotRest(v: nat, p: nat)
    requires p > 0 && v < 256 * p
    ensures Quot(v, p, 256) * p + Rest(v, p) == v
  {
    DivBound(v, p, 256);
  }

  lemma Distribute(high: nat, q: nat, p: nat)
    ensures (high * 256 + q) * p == high * (256 * p) + q * p
  {
  }

  lemma {:induction false} OnesAre(high: nat, s: seq<Byte>)
    requires AllOnes(s)
    ensures BigEndian(high, s) == (high + 1) * Pow256(|s|) - 1
    decreases |s|
  {
    if s != [] {
      OnesAre(high * 256 + 255, s[1..]);
      var p := Pow256(|s| - 1);
      assert (high * 256 + 256) * p == (high + 1) * (256 * p);
    }
  }

  // One more than the numbers w bytes have room for.
  function Capacity(w: nat): nat
    requires 1 <= w <= 8
  {
    Pow2(8 - w) * Pow256(w - 1)
  }

  // A number in w bytes. The largest one is reserved.
  function EncodeLength(v: nat, w: nat): (r: seq<Byte>)
    requires 1 <= w <= 8 && v < Capacity(w) - 1
    ensures |r| == w
  {
    var p := Pow256(w - 1);
    [Marked(Quot(v, p, Pow2(8 - w)), w)] + Digits(Rest(v, p), w - 1)
  }

  function Marked(x: nat, w: nat): Byte
    requires 1 <= w <= 8 && x < Pow2(8 - w)
  {
    MarkerIs(x, w);
    Pow2(8 - w) + x
  }

  lemma SmallPowers()
    ensures Pow2(0) == 1 && Pow2(1) == 2 && Pow2(2) == 4 && Pow2(3) == 8
    ensures Pow2(4) == 16 && Pow2(5) == 32 && Pow2(6) == 64 && Pow2(7) == 128
  {
    assert Pow2(1) == 2 * Pow2(0) && Pow2(2) == 2 * Pow2(1) && Pow2(3) == 2 * Pow2(2);
    assert Pow2(4) == 2 * Pow2(3) && Pow2(5) == 2 * Pow2(4) && Pow2(6) == 2 * Pow2(5) && Pow2(7) == 2 * Pow2(6);
  }

  lemma MarkerIs(x: nat, w: nat)
    requires 1 <= w <= 8 && x < Pow2(8 - w)
    ensures Pow2(8 - w) + x < 256
    ensures FirstBit(Pow2(8 - w) + x, 0) == w - 1
    ensures (Pow2(8 - w) + x) % Pow2(8 - w) == x
  {
    hide Pow2, FirstBit;
    SmallPowers();
    SmallQuotient(Pow2(8 - w) + x, Pow2(8 - w));
    FirstBitIs(Pow2(8 - w) + x, w);
  }

  lemma FirstBitIs(b: Byte, w: nat)
    requires 1 <= w <= 8 && Pow2(8 - w) <= b < 2 * Pow2(8 - w)
    ensures FirstBit(b, 0) == w - 1
  {
    hide Pow2, FirstBit;
    SmallPowers();
    FirstBitFrom(b, w, 0);
  }

  lemma {:induction false} FirstBitFrom(b: Byte, w: nat, i: nat)
    requires 1 <= w <= 8 && i < w && Pow2(8 - w) <= b < 2 * Pow2(8 - w)
    ensures FirstBit(b, i) == w - 1
    decreases w - i
  {
    hide Pow2, FirstBit;
    FirstBitStep(b, w, i);
    if i < w - 1 {
      FirstBitFrom(b, w, i + 1);
    }
  }

  lemma FirstBitStep(b: Byte, w: nat, i: nat)
    requires 1 <= w <= 8 && i < w && Pow2(8 - w) <= b < 2 * Pow2(8 - w)
    ensures i == w - 1 ==> FirstBit(b, i) == i
    ensures i < w - 1 ==> FirstBit(b, i) == FirstBit(b, i + 1)
  {
    PowGrows(if i < w - 1 then 9 - w else 8 - w, 7 - i);
    assert i < w - 1 ==> Pow2(9 - w) == 2 * Pow2(8 - w);
    hide Pow2;
    SmallQuotient(b, Pow2(7 - i));
  }

  lemma {:induction false} PowGrows(m: nat, n: nat)
    requires m <= n
    ensures Pow2(m) <= Pow2(n)
  {
    if m < n {
      PowGrows(m, n - 1);
    }
  }

  lemma SmallQuotient(n: nat, d: nat)
    requires 0 < d && n < 2 * d
    ensures n / d == (if n < d then 0 else 1) && n % d == (if n < d then n else n - d)
  {
    assert n == (if n < d then 0 else 1) * d + (if n < d then n else n - d);
  }

  lemma ReadLengthInverts(b: seq<Byte>, pos: nat, v: nat, w: nat)
    requires 1 <= w <= 8 && v < Capacity(w) - 1 && HasAt(b, pos, EncodeLength(v, w))
    ensures ReadLength(b, pos) == Num(v, pos + w)
  {
    hide HasAt, FirstBit, Pow2, Pow256, Digits, BigEndian, AllOnes;
    var p := Pow256(w - 1);
    DivBound(v, p, Pow2(8 - w));
    var x := v / p;
    MarkerIs(x, w);
    var rest := Digits(v % p, w - 1);
    HasParts(b, pos, [Pow2(8 - w) + x], rest);
    HasByte(b, pos, [Pow2(8 - w) + x], 0);
    HasSlice(b, pos + 1, rest);
    DigitsInvert(x, v % p, w - 1);
    if AllOnes(rest) && x == Pow2(8 - w) - 1 {
      OnesAre(x, rest);
    }
  }

  function EncodeSigned(d: int, w: nat): seq<Byte>
    requires HasRoom(d, w)
  {
    EncodeLength(d + Pow2(7 * w - 1) - 1, w)
  }

  predicate HasRoom(d: int, w: nat) {
    1 <= w <= 8 && 0 <= d + Pow2(7 * w - 1) - 1 < Capacity(w) - 1
  }

  lemma ReadSignedInverts(b: seq<Byte>, pos: nat, d: int, w: nat)
    requires HasRoom(d, w) && HasAt(b, pos, EncodeSigned(d, w))
    ensures ReadSignedLength(b, pos) == Num(d, pos + w)
  {
    hide HasAt, Pow2, ReadLength;
    ReadLengthInverts(b, pos, d + Pow2(7 * w - 1) - 1, w);
  }

  // The encoder may choose the widths of the numbers.
  ghost predicate DiffsHaveRoom(prev: nat, sizes: seq<nat>, widths: seq<nat>)
    requires |widths| == |sizes|
    decreases |sizes|
  {
    sizes == [] || (HasRoom(sizes[0] - prev, widths[0]) && DiffsHaveRoom(sizes[0], sizes[1..], widths[1..]))
  }

  ghost function EbmlDiffs(prev: nat, sizes: seq<nat>, widths: seq<nat>): seq<Byte>
    requires |widths| == |sizes| && DiffsHaveRoom(prev, sizes, widths)
    decreases |sizes|
  {
    if sizes == [] then []
    else EncodeSigned(sizes[0] - prev, widths[0]) + EbmlDiffs(sizes[0], sizes[1..], widths[1..])
  }

  lemma {:induction false} EbmlSizesInvert(b: seq<Byte>, pos: nat, endpos: nat, prev: nat, sizes: seq<nat>, widths: seq<nat>)
    requires |widths| == |sizes| && DiffsHaveRoom(prev, sizes, widths) && Fit(sizes)
    requires HasAt(b, pos, EbmlDiffs(prev, sizes, widths))
    ensures var end := pos + |EbmlDiffs(prev, sizes, widths)|;
            EbmlSizes(b, pos, endpos, prev, |sizes|) == if sizes == [] || end < endpos then Sizes(sizes, end) else BadSizes
    decreases |sizes|
  {
    hide HasAt, HasRoom, ReadSignedLength, EncodeLength;
    if sizes != [] {
      HasParts(b, pos, EncodeSigned(sizes[0] - prev, widths[0]), EbmlDiffs(sizes[0], sizes[1..], widths[1..]));
      ReadSignedInverts(b, pos, sizes[0] - prev, widths[0]);
      EbmlSizesInvert(b, pos + widths[0], endpos, sizes[0], sizes[1..], widths[1..]);
      assert [sizes[0]] + sizes[1..] == sizes;
    }
  }

  // The header of an EBML laced block, without the count: all sizes but the
  // last.
  ghost predicate EbmlHasRoom(sizes: seq<nat>, widths: seq<nat>) {
    && |sizes| == |widths| && sizes != []
    && 1 <= widths[0] <= 8 && sizes[0] < Capacity(widths[0]) - 1
    && DiffsHaveRoom(sizes[0], sizes[1..], widths[1..])
  }

  ghost function EbmlHeader(sizes: seq<nat>, widths: seq<nat>): seq<Byte>
    requires EbmlHasRoom(sizes, widths)
  {
    EncodeLength(sizes[0], widths[0]) + EbmlDiffs(sizes[0], sizes[1..], widths[1..])
  }

  ghost function EncodeEbml(frames: seq<seq<Byte>>, widths: seq<nat>): seq<Byte>
    requires 2 <= |frames| <= 256 && EbmlHasRoom(Lengths(frames[..|frames| - 1]), widths)
  {
    [|frames| - 1] + EbmlHeader(Lengths(frames[..|frames| - 1]), widths) + Concat(frames)
  }

  lemma EbmlHeaderInverts(b: seq<Byte>, pos: nat, endpos: nat, sizes: seq<nat>, widths: seq<nat>)
    requires EbmlHasRoom(sizes, widths) && Fit(sizes) && |sizes| < 256
    requires pos < |b| && b[pos] == |sizes| && pos + 1 <= endpos
    requires HasAt(b, pos + 1, EbmlHeader(sizes, widths))
    ensures var end := pos + 1 + |EbmlHeader(sizes, widths)|;
            LaceSizes(3, b, pos, endpos) ==
            if end < endpos then Sizes(sizes + [LastSize(end, endpos, Sum(sizes))], end) else BadSizes
  {
    hide HasAt, HasRoom, ReadLength, EncodeLength, EbmlSizes, LastSize, EbmlDiffs, DiffsHaveRoom;
    var w := widths[0];
    HasParts(b, pos + 1, EncodeLength(sizes[0], w), EbmlDiffs(sizes[0], sizes[1..], widths[1..]));
    ReadLengthInverts(b, pos + 1, sizes[0], w);
    EbmlSizesInvert(b, pos + 1 + w, endpos, sizes[0], sizes[1..], widths[1..]);
    assert sizes == [sizes[0]] + sizes[1..];
    NoDiffs(sizes[0], sizes[1..], widths[1..]);
  }

  lemma NoDiffs(prev: nat, sizes: seq<nat>, widths: seq<nat>)
    requires |widths| == |sizes| && DiffsHaveRoom(prev, sizes, widths)
    ensures sizes == [] ==> EbmlDiffs(prev, sizes, widths) == []
    ensures sizes != [] ==> EbmlDiffs(prev, sizes, widths) != []
  {
  }

  // EBML lacing is decoded as it was encoded, exactly if no frame is too large
  // and not all frames are empty.
  lemma EbmlRoundTripIff(b: seq<Byte>, pos: nat, frames: seq<seq<Byte>>, widths: seq<nat>)
    requires 2 <= |frames| <= 256 && EbmlHasRoom(Lengths(frames[..|frames| - 1]), widths)
    requires HasAt(b, pos, EncodeEbml(frames, widths))
    ensures Decode(3, b, pos, pos + |EncodeEbml(frames, widths)|) == Some(frames) <==>
            SizesOk(frames) && Concat(frames) != []
  {
    hide HasAt, EbmlHeader, EbmlHasRoom, Lengths, LaceSizes, Cut, Concat, Sum, SizesOk, Fit, LastSize;
    var n := |frames|;
    var sizes := Lengths(frames[..n - 1]);
    var endpos := pos + |EncodeEbml(frames, widths)|;
    var header := EbmlHeader(sizes, widths);
    HasParts(b, pos, [n - 1] + header, Concat(frames));
    HasParts(b, pos, [n - 1], header);
    HasByte(b, pos, [n - 1], 0);
    if Decode(3, b, pos, endpos) == Some(frames) {
      LacesCoverBlock(3, b, pos, endpos);
    }
    if SizesOk(frames) {
      LengthsSmall(frames);
      EbmlHeaderInverts(b, pos, endpos, sizes, widths);
      ConcatLength(frames);
      LengthsSplit(frames);
      var start := pos + 1 + |header|;
      LastSizeIs(start, endpos, Sum(sizes), |frames[n - 1]|);
      CutInverts(b, start, frames);
    }
  }

  // --- The parser ---

  class Stream {
    const bytes: seq<Byte>
    var pos: nat
    var eof: bool

    ghost predicate Valid()
      reads this
    {
      pos <= |bytes| && (eof ==> pos == |bytes|)
    }

    constructor (bytes: seq<Byte>)
      ensures Valid() && this.bytes == bytes && pos == 0
    {
      this.bytes, pos, eof := bytes, 0, false;
    }

    // stream_read_char(): -256 at the end.
    method ReadChar() returns (c: int)
      requires Valid()
      modifies this
      ensures Valid()
      ensures old(pos) < |bytes| ==> c == bytes[old(pos)] && pos == old(pos) + 1 && !eof
      ensures old(pos) == |bytes| ==> c == -256 && pos == old(pos) && eof
    {
      if pos < |bytes| {
        c := bytes[pos];
        pos := pos + 1;
      } else {
        c := -256;
        eof := true;
      }
    }

    // stream_read()
    method Read(size: nat) returns (data: seq<Byte>)
      requires Valid()
      modifies this
      ensures Valid()
      ensures old(pos) + size <= |bytes| ==> data == bytes[old(pos)..old(pos) + size] && pos == old(pos) + size
      ensures old(pos) + size > |bytes| ==> |data| < size
    {
      var end := if pos + size <= |bytes| then pos + size else |bytes|;
      data := bytes[pos..end];
      eof := eof || end < pos + size;
      pos := end;
    }

    // ebml_read_length()
    method ReadEbmlLength() returns (len: Option<nat>)
      requires Valid()
      modifies this
      ensures Valid() && old(pos) <= pos
      ensures len == None <==> ReadLength(bytes, old(pos)).BadNum?
      ensures len.Some? ==> ReadLength(bytes, old(pos)) == Num(len.value, pos)
    {
      hide Pow2, FirstBit, ReadLength;
      var c := ReadChar();
      // (Sign extended at the end of the file.)
      var value: nat := c % TWO64;
      var lenMask, i := MarkerBit(value);
      ReadLengthIs(bytes, old(pos), i);
      if i >= 8 {
        return None;
      }
      len := ReadDigits(value % lenMask, lenMask, i);
    }

    // Looks for the first bit that is set.
    static method MarkerBit(value: nat) returns (lenMask: nat, i: nat)
      ensures i <= 8 && (i < 8 ==> lenMask == Pow2(7 - i))
      ensures value < 256 ==> i == FirstBit(value, 0)
      ensures value == TWO64 - 256 ==> i == 8
    {
      hide Pow2, FirstBit;
      lenMask, i := 128, 0;
      TopMask();
      while i < 8 && value / lenMask % 2 == 0
        invariant 0 <= i <= 8 && (i < 8 ==> lenMask == Pow2(7 - i))
        invariant value < 256 ==> FirstBit(value, i) == FirstBit(value, 0)
      {
        NextBit(value, 7 - i, if value < 256 then value else 0);
        lenMask := lenMask / 2;
        i := i + 1;
      }
      StopBit(value, i, if value < 256 then value else 0);
    }

    // ebml_read_signed_length()
    method ReadEbmlSignedLength() returns (num: Option<int>)
      requires Valid()
      modifies this
      ensures Valid() && old(pos) <= pos
      ensures num == None <==> ReadSignedLength(bytes, old(pos)).BadNum?
      ensures num.Some? ==> ReadSignedLength(bytes, old(pos)) == Num(num.value, pos)
    {
      var offset := pos;
      var unum := ReadEbmlLength();
      if unum == None {
        return None;
      }
      var l := pos - offset;
      num := Some(unum.value - (Pow2(7 * l - 1) - 1));
    }

    // The bytes of a length behind the first one.
    method ReadDigits(first: nat, mask: nat, n: nat) returns (len: Option<nat>)
      requires Valid() && n < 8 && mask == Pow2(7 - n) && first < mask
      modifies this
      ensures Valid() && old(pos) <= pos
      ensures old(pos) + n > |bytes| ==> len == None
      ensures old(pos) + n <= |bytes| ==>
                var rest := bytes[old(pos)..old(pos) + n];
                && pos == old(pos) + n
                && len == if first == mask - 1 && AllOnes(rest) then None else Some(BigEndian(first, rest))
    {
      hide Pow256, Pow2, BigEndian, AllOnes;
      FirstFits(n);
      var value, i := first, n;
      var j := i + 1;
      var numFfs := if value == mask - 1 then 1 else 0;
      ghost var p := pos;
      NoDigits(first);
      assert bytes[p..p] == [];
      while i > 0
        invariant 0 <= i <= n && Valid() && p <= pos
        invariant p + n - i <= |bytes| ==>
                    && pos == p + n - i && value == BigEndian(first, bytes[p..pos]) && value < Pow256(7 - i)
                    && numFfs <= 1 + n - i && (numFfs == 1 + n - i <==> first == mask - 1 && AllOnes(bytes[p..pos]))
        invariant p + n - i > |bytes| ==> pos == |bytes| && value == TWO64 - 256 && numFfs <= n - i
      {
        var c := ReadChar();
        i := i - 1;
        if c >= 0 {
          NextDigit(first, bytes[p..pos - 1], c, value, 6 - i);
          assert bytes[p..pos] == bytes[p..pos - 1] + [c];
        }
        value := if c < 0 then TWO64 - 256 else value * 256 % TWO64 + c;
        if value % 256 == 255 {
          numFfs := numFfs + 1;
        }
      }
      LengthFits();
      if j == numFfs || value >= TWO64 / 2 {
        return None;
      }
      len := Some(value);
    }
  }

  function AddTo(size: nat, rest: Num): Num {
    if rest.BadNum? then BadNum else Num(U32(size + rest.value), rest.pos)
  }

  function PutFirst(sizes: seq<nat>, rest: Sizes): Sizes {
    if rest.BadSizes? then BadSizes else Sizes(sizes + rest.sizes, rest.pos)
  }

  lemma AddTwice(a: nat, b: nat, rest: Num)
    requires rest.Num? ==> rest.value >= 0
    ensures AddTo(U32(a + b), rest) == AddTo(a, AddTo(b, rest))
  {
    hide U32;
    if rest.Num? {
      WrapTwice(a + b, rest.value);
      WrapTwice(b + rest.value, a);
    }
  }

  lemma PutTwice(a: seq<nat>, b: seq<nat>, rest: Sizes)
    ensures PutFirst(a, PutFirst(b, rest)) == PutFirst(a + b, rest)
  {
    if rest.Sizes? {
      assert a + (b + rest.sizes) == a + b + rest.sizes;
    }
  }

  lemma {:induction false} SumAppend(s: seq<nat>, x: nat)
    ensures Sum(s + [x]) == Sum(s) + x
    decreases |s|
  {
    if s == [] {
      assert Sum([x]) == x + Sum([]);
    } else {
      assert (s + [x])[1..] == s[1..] + [x];
      SumAppend(s[1..], x);
    }
  }

  // The size of one lace.
  method ReadLaceSize(s: Stream, endpos: nat) returns (size: Option<nat>)
    requires s.Valid()
    modifies s
    ensures s.Valid()
    ensures size == None <==> ReadXiphSize(s.bytes, old(s.pos), endpos).BadNum?
    ensures size.Some? ==> ReadXiphSize(s.bytes, old(s.pos), endpos) == Num(size.value, s.pos)
  {
    hide U32;
    ghost var all := ReadXiphSize(s.bytes, s.pos, endpos);
    var sum: nat := 0;
    var t: nat := 255;
    SmallXiph(s.bytes, s.pos, endpos);
    while t == 255
      invariant s.Valid() && s.pos <= |s.bytes| && 0 <= t < 256
      invariant t == 255 ==> all == AddTo(sum, ReadXiphSize(s.bytes, s.pos, endpos))
      invariant t != 255 ==> all == Num(sum, s.pos)
      decreases |s.bytes| - s.pos, t == 255
    {
      var c := s.ReadChar();
      if s.eof || s.pos >= endpos {
        return None;
      }
      t := c;
      SmallXiph(s.bytes, s.pos, endpos);
      AddTwice(sum, t, ReadXiphSize(s.bytes, s.pos, endpos));
      sum := U32(sum + t);
    }
    size := Some(sum);
  }

  lemma SmallXiph(b: seq<Byte>, pos: nat, endpos: nat)
    ensures AddTo(0, ReadXiphSize(b, pos, endpos)) == ReadXiphSize(b, pos, endpos)
  {
  }

  // Xiph lacing: all sizes but the last.
  method ReadXiphSizes(s: Stream, endpos: nat, laces: nat, laceSize: array<nat>) returns (ok: bool, total: nat)
    requires s.Valid() && 1 <= laces <= laceSize.Length
    modifies s, laceSize
    ensures s.Valid()
    ensures var r := XiphSizes(s.bytes, old(s.pos), endpos, laces - 1);
            ok == r.Sizes? && (ok ==> laceSize[..laces - 1] == r.sizes && s.pos == r.pos && total == U32(Sum(r.sizes)))
  {
    hide U32;
    ghost var all := XiphSizes(s.bytes, s.pos, endpos, laces - 1);
    total := 0;
    var i := 0;
    while i < laces - 1
      invariant 0 <= i <= laces - 1 && s.Valid()
      invariant all == PutFirst(laceSize[..i], XiphSizes(s.bytes, s.pos, endpos, laces - 1 - i))
      invariant total == U32(Sum(laceSize[..i]))
    {
      var size := ReadLaceSize(s, endpos);
      if size == None {
        return false, 0;
      }
      laceSize[i] := size.value;
      PutTwice(laceSize[..i], [size.value], XiphSizes(s.bytes, s.pos, endpos, laces - 2 - i));
      SumAppend(laceSize[..i], size.value);
      assert laceSize[..i + 1] == laceSize[..i] + [size.value];
      WrapTwice(Sum(laceSize[..i]), size.value);
      total := U32(total + size.value);
      i := i + 1;
    }
    ok := true;
  }

  // EBML lacing: all sizes but the first and the last.
  method ReadEbmlSizes(s: Stream, endpos: nat, laces: nat, first: nat, laceSize: array<nat>)
    returns (ok: bool, total: nat)
    requires s.Valid() && 1 <= laces <= laceSize.Length && laceSize[0] == first < TWO32
    modifies s, laceSize
    ensures s.Valid()
    ensures var r := EbmlSizes(s.bytes, old(s.pos), endpos, first, if laces > 2 then laces - 2 else 0);
            && ok == r.Sizes?
            && (ok ==> s.pos == r.pos && total == U32(first + Sum(r.sizes)) && laceSize[0] == first
                       && (laces > 1 ==> laceSize[1..laces - 1] == r.sizes))
  {
    hide U32, EbmlSizes, ReadSignedLength, Sum;
    ghost var n := if laces > 2 then laces - 2 else 0;
    ghost var all := EbmlSizes(s.bytes, s.pos, endpos, first, n);
    ghost var sizes: seq<nat> := [];
    total := first;
    WrapSmall(first);
    EbmlNone(s.bytes, s.pos, endpos, first, n);
    var i := 1;
    while i < laces - 1
      invariant 1 <= i && (i < laces || laces == 1) && s.Valid() && |sizes| == i - 1 && (laces == 1 ==> i == 1)
      invariant laceSize[0] == first && (laces > 1 ==> laceSize[1..i] == sizes)
      invariant all == PutFirst(sizes, EbmlSizes(s.bytes, s.pos, endpos, laceSize[i - 1], n - (i - 1)))
      invariant total == U32(first + Sum(sizes))
    {
      EbmlStep(s.bytes, s.pos, endpos, laceSize[i - 1], n - (i - 1));
      var snum := s.ReadEbmlSignedLength();
      if snum == None || s.pos >= endpos {
        return false, 0;
      }
      laceSize[i] := U32(laceSize[i - 1] + snum.value);
      PutTwice(sizes, [laceSize[i]], EbmlSizes(s.bytes, s.pos, endpos, laceSize[i], n - i));
      SumAppend(sizes, laceSize[i]);
      WrapTwice(first + Sum(sizes), laceSize[i]);
      sizes := sizes + [laceSize[i]];
      total := U32(total + laceSize[i]);
      i := i + 1;
    }
    EbmlNone(s.bytes, s.pos, endpos, laceSize[i - 1], n - (i - 1));
    assert sizes + [] == sizes;
    ok := true;
  }

  lemma EbmlStep(b: seq<Byte>, pos: nat, endpos: nat, prev: nat, n: nat)
    requires n > 0
    ensures var diff := ReadSignedLength(b, pos);
            EbmlSizes(b, pos, endpos, prev, n) ==
            if diff.BadNum? || diff.pos >= endpos then BadSizes
            else PutFirst([U32(prev + diff.value)], EbmlSizes(b, diff.pos, endpos, U32(prev + diff.value), n - 1))
  {
  }

  lemma EbmlNone(b: seq<Byte>, pos: nat, endpos: nat, prev: nat, n: nat)
    ensures PutFirst([], EbmlSizes(b, pos, endpos, prev, n)) == EbmlSizes(b, pos, endpos, prev, n)
    ensures n == 0 ==> EbmlSizes(b, pos, endpos, prev, n) == Sizes([], pos)
    ensures Sum([]) == 0
  {
    var r := EbmlSizes(b, pos, endpos, prev, n);
    if r.Sizes? {
      assert [] + r.sizes == r.sizes;
    }
  }

  lemma WrapSmall(x: nat)
    requires x < TWO32
    ensures U32(x) == x
  {
  }

  // demux_mkv_read_block_lacing(): the sizes of the laces.
  method ReadLaceSizes(kind: nat, s: Stream, endpos: nat, laceSize: array<nat>) returns (ok: bool, laces: nat)
    requires s.Valid() && laceSize.Length == 256
    modifies s, laceSize
    ensures s.Valid()
    ensures var r := LaceSizes(kind, s.bytes, old(s.pos), endpos);
            ok == r.Sizes? && (ok ==> laces <= 256 && laceSize[..laces] == r.sizes && s.pos == r.pos)
  {
    hide U32, XiphLaces, EbmlLaces;
    if kind == 0 {
      laceSize[0] := U32(endpos - s.pos);
      return true, 1;
    }
    var c := s.ReadChar();
    if c < 0 || s.pos > endpos {
      return false, 0;
    }
    laces := c + 1;
    match kind
    case 1 => ok := ReadXiphLaces(s, endpos, laces, laceSize);
    case 2 =>
      FillSizes(U32(endpos - s.pos), laces, laceSize);
      ok := true;
    case 3 => ok := ReadEbmlLaces(s, endpos, laces, laceSize);
    case _ => ok := false;
  }

  method ReadXiphLaces(s: Stream, endpos: nat, laces: nat, laceSize: array<nat>) returns (ok: bool)
    requires s.Valid() && 1 <= laces <= laceSize.Length
    modifies s, laceSize
    ensures s.Valid()
    ensures var r := XiphLaces(s.bytes, old(s.pos), endpos, laces);
            ok == r.Sizes? && (ok ==> laceSize[..laces] == r.sizes && s.pos == r.pos)
  {
    var total;
    ok, total := ReadXiphSizes(s, endpos, laces, laceSize);
    if ok {
      laceSize[laces - 1] := U32(U32(endpos - s.pos) - total);
      assert laceSize[..laces] == laceSize[..laces - 1] + [laceSize[laces - 1]];
    }
  }

  method FillSizes(fullLength: nat, laces: nat, laceSize: array<nat>)
    requires 1 <= laces <= laceSize.Length
    modifies laceSize
    ensures laceSize[..laces] == seq(laces, _ => fullLength / laces)
  {
    var i := 0;
    while i < laces
      invariant 0 <= i <= laces
      invariant forall k :: 0 <= k < i ==> laceSize[k] == fullLength / laces
    {
      laceSize[i] := fullLength / laces;
      i := i + 1;
    }
  }

  method ReadEbmlLaces(s: Stream, endpos: nat, laces: nat, laceSize: array<nat>) returns (ok: bool)
    requires s.Valid() && 1 <= laces <= laceSize.Length
    modifies s, laceSize
    ensures s.Valid()
    ensures var r := EbmlLaces(s.bytes, old(s.pos), endpos, laces);
            ok == r.Sizes? && (ok ==> laceSize[..laces] == r.sizes && s.pos == r.pos)
  {
    hide ReadLength, EbmlSizes, Sum;
    var num := s.ReadEbmlLength();
    if num == None || s.pos >= endpos {
      return false;
    }
    laceSize[0] := U32(num.value);
    var total;
    ok, total := ReadEbmlSizes(s, endpos, laces, U32(num.value), laceSize);
    if ok {
      ghost var sizes := laceSize[..laces - 1];
      assert laces > 1 ==> sizes == [laceSize[0]] + laceSize[1..laces - 1];
      laceSize[laces - 1] := U32(U32(endpos - s.pos) - total);
      assert laceSize[..laces] == sizes + [laceSize[laces - 1]];
    }
  }

  // demux_mkv_read_block_lacing()
  method ReadBlockLacing(kind: nat, s: Stream, endpos: nat) returns (ok: bool, laces: seq<seq<Byte>>)
    requires s.Valid()
    modifies s
    ensures s.Valid()
    ensures Decode(kind, s.bytes, old(s.pos), endpos) == if ok then Some(laces) else None
  {
    hide LaceSizes;
    var laceSize := new nat[256];
    var n;
    laces := [];
    ok, n := ReadLaceSizes(kind, s, endpos, laceSize);
    if !ok {
      return;
    }
    ghost var sizes := laceSize[..n];
    ghost var all := Cut(s.bytes, s.pos, endpos, sizes);
    PrependNothing(all);
    var i := 0;
    while i < n
      invariant 0 <= i <= n && s.Valid() && laceSize[..n] == sizes
      invariant all == Prepend(laces, Cut(s.bytes, s.pos, endpos, sizes[i..]))
    {
      var size := laceSize[i];
      assert sizes[i..][0] == size && sizes[i..][1..] == sizes[i + 1..];
      if s.pos + size > endpos || size > MAX_LACE_SIZE {
        return false, [];
      }
      var buf := s.Read(size);
      if |buf| != size {
        return false, [];
      }
      PrependTwice(laces, [buf], Cut(s.bytes, s.pos, endpos, sizes[i + 1..]));
      laces := laces + [buf];
      i := i + 1;
    }
    assert sizes[n..] == [] && laces + [] == laces;
    ok := s.pos == endpos;
  }

  lemma WrapTwice(a: int, b: int)
    ensures U32(U32(a) + b) == U32(a + b)
  {
  }

  lemma TopMask()
    ensures Pow2(7) == 128
  {
    SmallPowers();
  }

  lemma NextBit(value: nat, k: nat, b: Byte)
    requires k <= 7 && value / Pow2(k) % 2 == 0
    ensures k > 0 ==> Pow2(k) / 2 == Pow2(k - 1)
    ensures value == b ==> FirstBit(b, 7 - k) == FirstBit(b, 8 - k)
  {
  }

  lemma StopBit(value: nat, i: nat, b: Byte)
    requires i <= 8 && (i < 8 ==> value / Pow2(7 - i) % 2 == 1)
    ensures value == TWO64 - 256 ==> i == 8
    ensures value == b ==> FirstBit(b, i) == i
  {
    if i < 8 && value == TWO64 - 256 {
      SignBits(7 - i);
    }
  }

  lemma SignBits(k: nat)
    requires k <= 7
    ensures (TWO64 - 256) / Pow2(k) % 2 == 0
  {
    hide Pow2;
    SmallPowers();
  }

  lemma ReadLengthIs(b: seq<Byte>, pos: nat, i: nat)
    requires i <= 8 && (pos < |b| ==> i == FirstBit(b[pos], 0))
    ensures pos >= |b| || i == 8 || pos + 1 + i > |b| ==> ReadLength(b, pos) == BadNum
    ensures pos < |b| && i < 8 && pos + 1 + i <= |b| ==>
              var mask := Pow2(7 - i);
              var rest := b[pos + 1..pos + 1 + i];
              ReadLength(b, pos) ==
              if b[pos] % mask == mask - 1 && AllOnes(rest) then BadNum else Num(BigEndian(b[pos] % mask, rest), pos + 1 + i)
  {
  }

  lemma FirstFits(n: nat)
    requires n < 8
    ensures Pow2(7 - n) <= Pow256(7 - n)
  {
    Pow2Below(7 - n);
  }

  lemma {:induction false} Pow2Below(n: nat)
    ensures Pow2(n) <= Pow256(n)
  {
    if n > 0 {
      Pow2Below(n - 1);
    }
  }

  lemma LengthFits()
    ensures Pow256(7) < TWO64 / 2
  {
    assert Pow256(2) == 65536 && Pow256(4) == 65536 * 65536;
    assert Pow256(7) == 256 * 65536 * Pow256(4);
  }

  lemma NoDigits(first: nat)
    ensures BigEndian(first, []) == first && AllOnes([])
  {
  }

  lemma {:induction false} DigitsAppend(first: nat, s: seq<Byte>, c: Byte)
    ensures BigEndian(first, s + [c]) == BigEndian(first, s) * 256 + c
    decreases |s|
  {
    if s == [] {
      assert BigEndian(first, [c]) == BigEndian(first * 256 + c, []);
    } else {
      assert (s + [c])[1..] == s[1..] + [c];
      DigitsAppend(first * 256 + s[0], s[1..], c);
    }
  }

  lemma NextDigit(first: nat, s: seq<Byte>, c: Byte, value: nat, k: nat)
    requires value == BigEndian(first, s) && value < Pow256(k) && k <= 6
    ensures BigEndian(first, s + [c]) == value * 256 + c < Pow256(k + 1)
    ensures value * 256 % TWO64 == value * 256 && (value * 256 + c) % 256 == c
    ensures AllOnes(s + [c]) <==> AllOnes(s) && c == 255
  {
    DigitsAppend(first, s, c);
    Pow256Grows(k, 6);
    LengthFits();
    assert (s + [c])[|s|] == c && forall i :: 0 <= i < |s| ==> (s + [c])[i] == s[i];
  }

  lemma {:induction false} Pow256Grows(m: nat, n: nat)
    requires m <= n
    ensures Pow256(m) <= Pow256(n)
    decreases n - m
  {
    if m < n {
      Pow256Grows(m + 1, n);
    }
  }
}
