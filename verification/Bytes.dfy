// Byte strings, pieces of them, and 32 bit arithmetic.

module Bytes {
  type Byte = b: int | 0 <= b < 256

  const TWO32: nat := 0x1_0000_0000

  // Conversion to an unsigned 32 bit integer.
  function U32(x: int): (r: nat)
    ensures r < TWO32
    ensures 0 <= x < TWO32 ==> r == x
  {
    x % TWO32
  }

  ghost predicate HasAt(c: seq<Byte>, pos: nat, s: seq<Byte>) {
    pos + |s| <= |c| && c[pos..pos + |s|] == s
  }

  lemma HasParts(c: seq<Byte>, pos: nat, s: seq<Byte>, t: seq<Byte>)
    ensures HasAt(c, pos, s + t) <==> HasAt(c, pos, s) && HasAt(c, pos + |s|, t)
  {
    if HasAt(c, pos, s + t) {
      assert c[pos..pos + |s|] == (s + t)[..|s|];
      assert c[pos + |s|..pos + |s| + |t|] == (s + t)[|s|..];
    }
    if HasAt(c, pos, s) && HasAt(c, pos + |s|, t) {
      assert c[pos..pos + |s + t|] == c[pos..pos + |s|] + c[pos + |s|..pos + |s| + |t|];
    }
  }

  // What was there stays there if the file changes behind it.
  lemma HasBefore(c: seq<Byte>, d: seq<Byte>, pos: nat, s: seq<Byte>, n: nat)
    requires HasAt(c, pos, s) && pos + |s| <= n <= |c| && n <= |d| && c[..n] == d[..n]
    ensures HasAt(d, pos, s)
  {
    assert c[pos..pos + |s|] == c[..n][pos..pos + |s|];
    assert d[pos..pos + |s|] == d[..n][pos..pos + |s|];
  }

  lemma HasSlice(c: seq<Byte>, pos: nat, s: seq<Byte>)
    requires HasAt(c, pos, s)
    ensures pos + |s| <= |c| && c[pos..pos + |s|] == s
  {
  }

  lemma HasByte(c: seq<Byte>, pos: nat, s: seq<Byte>, i: nat)
    requires HasAt(c, pos, s) && i < |s|
    ensures pos + i < |c| && c[pos + i] == s[i]
  {
    assert c[pos..pos + |s|][i] == c[pos + i];
  }

  lemma NothingAt(c: seq<Byte>, pos: nat)
    requires pos <= |c|
    ensures HasAt(c, pos, [])
  {
  }
}
