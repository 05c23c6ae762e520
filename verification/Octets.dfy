/** Byte order and the C integer codecs (fuzzer/utils.c).

    Integers are unbounded here; every place where the source's `short` or `int` wraps is written
    out with `Signed16` or `Signed32`. The host is little-endian, as the
    source's memcpy-then-reverse idiom assumes. */
module Octets {

  type byte = b: int | 0 <= b < 256

  const RADIX: nat := 256

  /** The value a two's complement word has when `v` is stored in it. */
  function Signed16(v: int): (r: int)
    ensures -0x8000 <= r < 0x8000
    ensures 0 <= v < 0x8000 ==> r == v
  {
    (v + 0x8000) % 0x1_0000 - 0x8000
  }

  function Signed32(v: int): (r: int)
    ensures -0x8000_0000 <= r < 0x8000_0000
    ensures 0 <= v < 0x8000_0000 ==> r == v
  {
    (v + 0x8000_0000) % 0x1_0000_0000 - 0x8000_0000
  }

  function Pow(k: nat): (r: nat)
    ensures r > 0
  {
    if k == 0 then 1 else RADIX * Pow(k - 1)
  }

  /** The `k` low-order base-256 digits of `v`, most significant first. */
  function BE(v: nat, k: nat): (s: seq<byte>)
    ensures |s| == k
  {
    if k == 0 then [] else BE(v / RADIX, k - 1) + [v % RADIX]
  }

  /** The number a big-endian digit string denotes. */
  function Value(s: seq<byte>): nat
  {
    if s == [] then 0 else Value(s[..|s| - 1]) * RADIX + s[|s| - 1]
  }

  lemma {:induction false} ValueBound(s: seq<byte>)
    ensures Value(s) < Pow(|s|)
  {
    if s != [] { ValueBound(s[..|s| - 1]); }
  }

  /** Reading back the digits of `v` gives `v` reduced to `k` digits. */
  lemma {:induction false} ValueOfBE(v: nat, k: nat)
    ensures Value(BE(v, k)) == v % Pow(k)
  {
    if k != 0 {
      ValueOfBE(v / RADIX, k - 1);
      assert BE(v, k)[..k - 1] == BE(v / RADIX, k - 1);
      ModSplit(v, Pow(k - 1));
    }
  }

  lemma ModSplit(v: nat, p: nat)
    requires p > 0
    ensures v % (RADIX * p) == (v / RADIX) % p * RADIX + v % RADIX
  {
    var q, d := v / RADIX, v % RADIX;
    var m, r := q / p, q % p;
    assert v == RADIX * (m * p + r) + d;
    assert v == m * (RADIX * p) + (r * RADIX + d) by {
      assert RADIX * (m * p) == m * (RADIX * p);
    }
    assert 0 <= r * RADIX + d < RADIX * p;
    ModUnique(v, RADIX * p, m, r * RADIX + d);
  }

  lemma ModUnique(v: nat, p: nat, m: nat, r: nat)
    requires p > 0 && v == m * p + r && r < p
    ensures v % p == r
  {
    var m2 := v / p;
    assert v == m2 * p + v % p;
    if m2 < m { MulMonotone(m2 + 1, m, p); }
    if m < m2 { MulMonotone(m + 1, m2, p); }
  }

  lemma MulMonotone(a: nat, b: nat, p: nat)
    requires a <= b
    ensures a * p <= b * p
  {
    assert (b - a) * p >= 0;
  }

  /** Every digit string is the expansion of its own value. */
  lemma {:induction false} BEOfValue(s: seq<byte>)
    ensures BE(Value(s), |s|) == s
  {
    if s != [] {
      BEOfValue(s[..|s| - 1]);
      assert s == s[..|s| - 1] + [s[|s| - 1]];
    }
  }

  lemma BE2(v: nat)
    ensures BE(v, 2) == [v / 0x100 % 0x100, v % 0x100]
  {
    assert BE(v / RADIX, 1) == BE(v / RADIX / RADIX, 0) + [v / RADIX % RADIX];
  }

  lemma BE4(v: nat)
    requires v < 0x1_0000_0000
    ensures BE(v, 4) == [v / 0x100_0000, v / 0x1_0000 % 0x100, v / 0x100 % 0x100, v % 0x100]
  {
    BE2(v / RADIX / RADIX);
    assert BE(v / RADIX, 3) == BE(v / RADIX / RADIX, 2) + [v / RADIX % RADIX];
    assert v / RADIX / RADIX == v / 0x1_0000;
    assert v / 0x1_0000 / 0x100 == v / 0x100_0000;
    assert v / 0x100_0000 < 0x100;
  }

  /* --- Reading: char_in_short, char_in_int --- */

  function CharInShort(src: seq<byte>, i: nat): int
    requires i + 2 <= |src|
  {
    Signed16((src[i] as int) * 0x100 + src[i + 1])
  }

  function CharInInt(src: seq<byte>, i: nat): int
    requires i + 4 <= |src|
  {
    Signed32(CharInShort(src, i) * 0x1_0000 + CharInShort(src, i + 2))
  }

  /** Bit 15 of a number: the sign bit of its low half. */
  predicate Bit15(v: int) { v / 0x8000 % 2 == 1 }

  lemma Signed16Periodic(v: int)
    ensures Signed16(v % 0x1_0000) == Signed16(v)
  {
  }

  lemma Signed32Periodic(v: int)
    ensures Signed32(v % 0x1_0000_0000) == Signed32(v)
    ensures Signed32(v - 0x1_0000_0000) == Signed32(v)
    ensures Signed32(v - 0x1_0000) != Signed32(v)
  {
  }

  lemma ShortRoundTrip(v: int, pre: seq<byte>, post: seq<byte>)
    ensures CharInShort(pre + BE(v % 0x1_0000, 2) + post, |pre|) == Signed16(v)
  {
    var u := v % 0x1_0000;
    BE2(u);
    var s := pre + BE(u, 2) + post;
    assert s[|pre|] == u / 0x100 && s[|pre| + 1] == u % 0x100;
    Signed16Periodic(v);
  }

  lemma LowHalf(u: nat)
    ensures Signed16(u % 0x1_0000) == if Bit15(u) then u % 0x1_0000 - 0x1_0000 else u % 0x1_0000
  {
    assert Bit15(u) <==> u % 0x1_0000 >= 0x8000;
  }

  lemma HighHalf(hi: nat)
    requires hi < 0x1_0000
    ensures Signed16(hi) == hi || Signed16(hi) == hi - 0x1_0000
  {
  }

  /** The arithmetic of char_in_int on the two halves of a 32-bit word. */
  lemma HalvesSum(u: nat)
    requires u < 0x1_0000_0000
    ensures Signed32(Signed16(u / 0x1_0000) * 0x1_0000 + Signed16(u % 0x1_0000))
         == Signed32(if Bit15(u) then u - 0x1_0000 else u)
  {
    var hi, lo := u / 0x1_0000, u % 0x1_0000;
    LowHalf(u);
    HighHalf(hi);
    hide Signed16, Signed32, Bit15;
    assert u == hi * 0x1_0000 + lo;
    Signed32Periodic(if Bit15(u) then u - 0x1_0000 else u);
  }

  lemma Bit15Periodic(v: int)
    ensures Bit15(v % 0x1_0000_0000) == Bit15(v)
  {
    var q, u := v / 0x1_0000_0000, v % 0x1_0000_0000;
    assert v / 0x8000 == 0x2_0000 * q + u / 0x8000;
  }

  lemma IntHalves(u: nat, s: seq<byte>, i: nat)
    requires u < 0x1_0000_0000 && i + 4 <= |s| && s[i..i + 4] == BE(u, 4)
    ensures CharInShort(s, i) == Signed16(u / 0x1_0000)
    ensures CharInShort(s, i + 2) == Signed16(u % 0x1_0000)
  {
    BE4(u);
    var w := s[i..i + 4];
    assert w[0] == s[i] && w[1] == s[i + 1] && w[2] == s[i + 2] && w[3] == s[i + 3];
    assert w[0] == u / 0x1_0000 / 0x100 && w[1] == u / 0x1_0000 % 0x100;
    assert w[2] == u % 0x1_0000 / 0x100 && w[3] == u % 0x1_0000 % 0x100;
    assert (s[i] as int) * 0x100 + s[i + 1] == u / 0x1_0000;
    assert (s[i + 2] as int) * 0x100 + s[i + 3] == u % 0x1_0000;
  }

  lemma Signed32Agree(v: int)
    ensures var u := v % 0x1_0000_0000;
            Signed32(if Bit15(u) then u - 0x1_0000 else u) == Signed32(if Bit15(v) then v - 0x1_0000 else v)
  {
    Bit15Periodic(v);
  }

  /** `char_in_int` undoes `int_in_char` exactly when bit 15 is clear; otherwise the low half is
      sign-extended and the answer is short by 65536. */
  lemma IntRoundTrip(v: int, pre: seq<byte>, post: seq<byte>)
    ensures CharInInt(pre + BE(v % 0x1_0000_0000, 4) + post, |pre|)
         == Signed32(if Bit15(v) then v - 0x1_0000 else v)
    ensures CharInInt(pre + BE(v % 0x1_0000_0000, 4) + post, |pre|) == Signed32(v) <==> !Bit15(v)
  {
    var u := v % 0x1_0000_0000;
    var s := pre + BE(u, 4) + post;
    assert s[|pre|..|pre| + 4] == BE(u, 4);
    IntHalves(u, s, |pre|);
    HalvesSum(u);
    Signed32Agree(v);
    Signed32Periodic(v);
  }

  lemma IntBit15Example(v: int)
    requires v == 0x8000
    ensures CharInInt(BE(v, 4), 0) == -0x8000
  {
    IntRoundTrip(v, [], []);
    assert [] + BE(v % 0x1_0000_0000, 4) + [] == BE(v, 4);
  }

  /* --- Writing: the in-place byte reversal shared by the *_in_char functions --- */

  function Reverse<T>(s: seq<T>): (r: seq<T>)
    ensures |r| == |s|
    ensures forall k | 0 <= k < |s| :: r[k] == s[|s| - 1 - k]
  {
    seq(|s|, k requires 0 <= k < |s| => s[|s| - 1 - k])
  }

  /** What memcpy of a little-endian integer leaves in memory. */
  function LE(v: nat, k: nat): seq<byte> { Reverse(BE(v, k)) }

  /** Octets outside the stretch are as before, those inside in reverse order. */
  predicate Mirrored(was: seq<byte>, now: seq<byte>, index: nat, width: nat)
  {
    && |now| == |was| && index + width <= |was|
    && (forall k | 0 <= k < |was| && !(index <= k < index + width) :: now[k] == was[k])
    && (forall k | index <= k < index + width :: now[k] == was[2 * index + width - 1 - k])
  }

  lemma MirroredIs(was: seq<byte>, now: seq<byte>, index: nat, width: nat)
    requires Mirrored(was, now, index, width)
    ensures now == was[..index] + Reverse(was[index..index + width]) + was[index + width..]
  {
    var r := was[..index] + Reverse(was[index..index + width]) + was[index + width..];
    forall k | 0 <= k < |was| ensures now[k] == r[k] {
      if index <= k < index + width { assert r[k] == Reverse(was[index..index + width])[k - index]; }
    }
  }

  /** The two-index loop: start and end walk towards each other, swapping. */
  method ReverseInPlace(dst: array<byte>, index: nat, width: nat)
    requires 0 < width && index + width <= dst.Length
    modifies dst
    ensures dst[..] == old(dst[..index]) + Reverse(old(dst[index..index + width])) + old(dst[index + width..])
  {
    hide Reverse;
    ghost var was := dst[..];
    var start, end := index, index + width - 1;
    while start < end
      invariant index <= start <= end + 1 <= index + width && start + end == 2 * index + width - 1
      invariant forall k | 0 <= k < dst.Length && !(index <= k < index + width) :: dst[k] == was[k]
      invariant forall k | start <= k <= end :: dst[k] == was[k]
      invariant forall k | index <= k < index + width && !(start <= k <= end) ::
                  dst[k] == was[2 * index + width - 1 - k]
    {
      var temp := dst[start];
      dst[start] := dst[end];
      dst[end] := temp;
      start := start + 1;
      end := end - 1;
    }
    MirroredIs(was, dst[..], index, width);
    assert old(dst[..index]) == was[..index] && old(dst[index + width..]) == was[index + width..];
    assert old(dst[index..index + width]) == was[index..index + width];
  }

  /** memcpy of `image` to dst + index. */
  method CopyIn(dst: array<byte>, index: nat, image: seq<byte>)
    requires index + |image| <= dst.Length
    modifies dst
    ensures dst[..] == old(dst[..index]) + image + old(dst[index + |image|..])
  {
    forall k | 0 <= k < |image| { dst[index + k] := image[k]; }
  }

  lemma ReverseTwice<T>(s: seq<T>)
    ensures Reverse(Reverse(s)) == s
  {
  }

  /** int_in_char / short_in_char / long_in_char: nothing is written when the value would not
      fit in the first `n` bytes, otherwise exactly the big-endian bytes at `index` change. */
  function Stored(was: seq<byte>, v: int, index: nat, width: nat, n: nat): (r: seq<byte>)
    requires n <= |was|
    ensures |r| == |was|
  {
    if index + width > n then was
    else was[..index] + BE(v % Pow(width), width) + was[index + width..]
  }

  method StoreBigEndian(dst: array<byte>, src: int, index: nat, width: nat, n: nat)
    requires 0 < width && n <= dst.Length
    modifies dst
    ensures dst[..] == Stored(old(dst[..]), src, index, width, n)
  {
    if index + width > n { return; }
    ghost var was := dst[..];
    var image := LE(src % Pow(width), width);
    CopyIn(dst, index, image);
    assert dst[index..index + width] == image && dst[..index] == was[..index];
    assert dst[index + width..] == was[index + width..];
    ReverseInPlace(dst, index, width);
    ReverseTwice(BE(src % Pow(width), width));
  }

  lemma PowTwo()
    ensures Pow(2) == 0x1_0000
  {
    assert Pow(2) == 256 * Pow(1) && Pow(1) == 256 * Pow(0);
  }

  lemma PowFour()
    ensures Pow(4) == 0x1_0000_0000
  {
    PowTwo();
    assert Pow(4) == 256 * Pow(3) && Pow(3) == 256 * Pow(2);
  }

  lemma PowEight()
    ensures Pow(8) == 0x1_0000_0000_0000_0000
  {
    PowFour();
    assert Pow(8) == 256 * Pow(7) && Pow(7) == 256 * Pow(6) && Pow(6) == 256 * Pow(5) && Pow(5) == 256 * Pow(4);
  }

  method ShortInChar(dst: array<byte>, src: int, index: nat, n: nat)
    requires n <= dst.Length
    modifies dst
    ensures dst[..] == Stored(old(dst[..]), src, index, 2, n)
    ensures index + 2 <= n ==> dst[..] == old(dst[..index]) + BE(src % 0x1_0000, 2) + old(dst[index + 2..])
    ensures index + 2 > n ==> dst[..] == old(dst[..])
  {
    hide BE;
    PowTwo();
    StoreBigEndian(dst, src, index, 2, n);
  }

  method IntInChar(dst: array<byte>, src: int, index: nat, n: nat)
    requires n <= dst.Length
    modifies dst
    ensures dst[..] == Stored(old(dst[..]), src, index, 4, n)
    ensures index + 4 <= n ==> dst[..] == old(dst[..index]) + BE(src % 0x1_0000_0000, 4) + old(dst[index + 4..])
    ensures index + 4 > n ==> dst[..] == old(dst[..])
  {
    hide BE;
    PowFour();
    StoreBigEndian(dst, src, index, 4, n);
  }

  method LongInChar(dst: array<byte>, src: int, index: nat, n: nat)
    requires n <= dst.Length
    modifies dst
    ensures dst[..] == Stored(old(dst[..]), src, index, 8, n)
    ensures index + 8 <= n ==>
              dst[..] == old(dst[..index]) + BE(src % 0x1_0000_0000_0000_0000, 8) + old(dst[index + 8..])
    ensures index + 8 > n ==> dst[..] == old(dst[..])
  {
    hide BE;
    PowEight();
    StoreBigEndian(dst, src, index, 8, n);
  }
}
