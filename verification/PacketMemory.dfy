/** The packet memory area (PMA) shared by driver and USB peripheral, the two copy loops between it
    and user memory, and the block-count encoding of receive buffer sizes.

    Both memories are byte sequences.  C leaves an access outside them undefined; here it reads zero
    or is ignored, and every statement about data asks for the range it needs. */
module PacketMemory {

  type byte = x: int | 0 <= x < 0x100
  type half = x: int | 0 <= x < 0x1_0000

  function GetByte(m: seq<byte>, a: nat): byte {
    if a < |m| then m[a] else 0
  }

  function PutByte(m: seq<byte>, a: nat, v: byte): seq<byte> {
    if a < |m| then m[a := v] else m
  }

  /** A little-endian halfword load and store. */
  function GetHalf(m: seq<byte>, a: nat): half {
    GetByte(m, a) + 0x100 * GetByte(m, a + 1)
  }

  function PutHalf(m: seq<byte>, a: nat, v: half): seq<byte> {
    PutByte(PutByte(m, a, v % 0x100), a + 1, v / 0x100)
  }

  lemma GetPutHalf(m: seq<byte>, a: nat, v: half, b: nat)
    ensures |PutHalf(m, a, v)| == |m|
    ensures a + 2 <= |m| ==> GetHalf(PutHalf(m, a, v), a) == v
    ensures b + 2 <= a || a + 2 <= b ==> GetHalf(PutHalf(m, a, v), b) == GetHalf(m, b)
  {}

  /** A halfword store leaves every range that does not overlap it. */
  lemma PutHalfOutside(m: seq<byte>, a: nat, v: half, lo: nat, hi: nat)
    requires lo <= hi <= |m| && (hi <= a || a + 2 <= lo)
    ensures |PutHalf(m, a, v)| == |m| && PutHalf(m, a, v)[lo..hi] == m[lo..hi]
  {}

  lemma CopyHalf(m: seq<byte>, a: nat, from: seq<byte>, b: nat)
    requires a + 2 <= |m| && b + 2 <= |from|
    ensures PutHalf(m, a, GetHalf(from, b)) == m[a := from[b]][a + 1 := from[b + 1]]
  {}

  /** Halfwords moved for a packet of n bytes; n is passed as a 16-bit argument. */
  function HalfCount(n: nat): nat {
    (n % 0x1_0000 + 1) / 2
  }

  /** k halfwords copied from `from` at `src` into `m` at `dst`. */
  function CopyHalves(m: seq<byte>, dst: nat, from: seq<byte>, src: nat, k: nat): (r: seq<byte>)
    ensures |r| == |m|
    decreases k
  {
    if k == 0 then m
    else CopyHalves(PutHalf(m, dst, GetHalf(from, src)), dst + 2, from, src + 2, k - 1)
  }

  /** Where both ranges exist the copy replaces exactly the target range by the source range. */
  lemma {:induction false} CopyHalvesIsSplice(m: seq<byte>, dst: nat, from: seq<byte>, src: nat, k: nat)
    requires dst + 2 * k <= |m| && src + 2 * k <= |from|
    ensures CopyHalves(m, dst, from, src, k) == m[..dst] + from[src..src + 2 * k] + m[dst + 2 * k..]
    decreases k
  {
    if k != 0 {
      var m1 := PutHalf(m, dst, GetHalf(from, src));
      CopyHalf(m, dst, from, src);
      CopyHalvesIsSplice(m1, dst + 2, from, src + 2, k - 1);
      assert m1[..dst + 2] == m[..dst] + [from[src], from[src + 1]];
      assert from[src..src + 2 * k] == [from[src], from[src + 1]] + from[src + 2..src + 2 * k];
      assert m1[dst + 2 * k..] == m[dst + 2 * k..];
    }
  }

  /** The copy never touches a range outside its target, even when it runs off the end of memory. */
  lemma {:induction false} CopyHalvesOutside(m: seq<byte>, dst: nat, from: seq<byte>, src: nat, k: nat, lo: nat, hi: nat)
    requires lo <= hi <= |m| && (hi <= dst || dst + 2 * k <= lo)
    ensures CopyHalves(m, dst, from, src, k)[lo..hi] == m[lo..hi]
    decreases k
  {
    if k != 0 {
      PutHalfOutside(m, dst, GetHalf(from, src), lo, hi);
      CopyHalvesOutside(PutHalf(m, dst, GetHalf(from, src)), dst + 2, from, src + 2, k - 1, lo, hi);
    }
  }

  lemma SliceOfSlice(s: seq<byte>, a: nat, size: nat, off: nat, w: nat)
    requires a + size <= |s| && off + w <= size
    ensures s[a..a + size][off..off + w] == s[a + off..a + off + w]
  {
    var x, y := s[a..a + size][off..off + w], s[a + off..a + off + w];
    assert |x| == |y| && forall i :: 0 <= i < w ==> x[i] == y[i];
  }

  lemma SlicePrefix(s: seq<byte>, a: nat, size: nat, w: nat)
    requires a + size <= |s| && w <= size
    ensures s[a..a + size][..w] == s[a..a + w]
  {
    var x, y := s[a..a + size][..w], s[a..a + w];
    assert |x| == |y| && forall i :: 0 <= i < w ==> x[i] == y[i];
  }

  lemma SpliceSame(s: seq<byte>, a: nat, b: nat)
    requires a <= b <= |s|
    ensures s[..a] + s[a..b] + s[b..] == s
  {}

  /** Writing n bytes to packet memory and reading n bytes back returns them; besides the n bytes the
      two copies move the one byte that completes the last halfword, and nothing else changes. */
  lemma WriteReadRoundTrip(pma: seq<byte>, ram: seq<byte>, src: nat, addr: nat, out: seq<byte>, dst: nat, n: nat)
    requires n < 0x1_0000
    requires addr + n + n % 2 <= |pma| && src + n + n % 2 <= |ram| && dst + n + n % 2 <= |out|
    ensures var pma' := CopyHalves(pma, addr, ram, src, HalfCount(n));
      var out' := CopyHalves(out, dst, pma', addr, HalfCount(n));
      && out'[dst..dst + n] == ram[src..src + n]
      && out'[..dst] == out[..dst] && out'[dst + n + n % 2..] == out[dst + n + n % 2..]
      && pma'[..addr] == pma[..addr] && pma'[addr + n + n % 2..] == pma[addr + n + n % 2..]
  {
    var k := HalfCount(n);
    assert 2 * k == n + n % 2;
    SpliceFacts(pma, addr, ram, src, k, n);
    SpliceFacts(out, dst, CopyHalves(pma, addr, ram, src, k), addr, k, n);
  }

  lemma SpliceFacts(m: seq<byte>, dst: nat, from: seq<byte>, src: nat, k: nat, n: nat)
    requires dst + 2 * k <= |m| && src + 2 * k <= |from| && n <= 2 * k
    ensures var r := CopyHalves(m, dst, from, src, k);
      r[dst..dst + n] == from[src..src + n] && r[..dst] == m[..dst] && r[dst + 2 * k..] == m[dst + 2 * k..]
  {
    hide CopyHalves;
    CopyHalvesIsSplice(m, dst, from, src, k);
    var r := CopyHalves(m, dst, from, src, k);
    assert r[dst..dst + 2 * k] == from[src..src + 2 * k];
    assert r[dst..dst + n] == r[dst..dst + 2 * k][..n];
    assert from[src..src + n] == from[src..src + 2 * k][..n];
  }

  /** PCD_WritePMA: user memory to packet memory, one halfword per turn. */
  method WritePMA(pma: array<byte>, ram: array<byte>, usrBuf: nat, pmaBufAddr: nat, nBytes: nat)
    requires pma != ram
    modifies pma
    ensures pma[..] == CopyHalves(old(pma[..]), pmaBufAddr, ram[..], usrBuf, HalfCount(nBytes))
  {
    var i: nat := (nBytes % 0x1_0000 + 1) / 2;
    var p, d := usrBuf, pmaBufAddr;
    while i != 0
      invariant CopyHalves(pma[..], d, ram[..], p, i)
             == CopyHalves(old(pma[..]), pmaBufAddr, ram[..], usrBuf, HalfCount(nBytes))
      invariant ram[..] == old(ram[..])
      decreases i
    {
      var temp1: int := LoadByte(ram, p);
      p := p + 1;
      var high: int := LoadByte(ram, p);
      StoreHalf(pma, d, temp1 + 0x100 * high);
      d := d + 2;
      p := p + 1;
      i := i - 1;
    }
  }

  /** PCD_ReadPMA: packet memory to user memory, one halfword per turn. */
  method ReadPMA(pma: array<byte>, ram: array<byte>, usrBuf: nat, pmaBufAddr: nat, nBytes: nat)
    requires pma != ram
    modifies ram
    ensures ram[..] == CopyHalves(old(ram[..]), usrBuf, pma[..], pmaBufAddr, HalfCount(nBytes))
  {
    var i: nat := (nBytes % 0x1_0000 + 1) / 2;
    var p, d := usrBuf, pmaBufAddr;
    while i != 0
      invariant CopyHalves(ram[..], p, pma[..], d, i)
             == CopyHalves(old(ram[..]), usrBuf, pma[..], pmaBufAddr, HalfCount(nBytes))
      invariant pma[..] == old(pma[..])
      decreases i
    {
      var h := LoadHalf(pma, d);
      StoreHalf(ram, p, h);
      d := d + 2;
      p := p + 2;
      i := i - 1;
    }
  }

  method LoadByte(m: array<byte>, a: nat) returns (v: byte)
    ensures v == GetByte(m[..], a)
  {
    v := if a < m.Length then m[a] else 0;
  }

  method LoadHalf(m: array<byte>, a: nat) returns (v: half)
    ensures v == GetHalf(m[..], a)
  {
    var low: int := LoadByte(m, a);
    var high: int := LoadByte(m, a + 1);
    v := low + 0x100 * high;
  }

  method StoreHalf(m: array<byte>, a: nat, v: half)
    modifies m
    ensures m[..] == PutHalf(old(m[..]), a, v)
  {
    if a < m.Length {
      m[a] := v % 0x100;
    }
    if a + 1 < m.Length {
      m[a + 1] := v / 0x100;
    }
  }

  // ---------- receive buffer size encoding ----------

  function WithBit15(x: half): half {
    if x >= 0x8000 then x else x + 0x8000
  }

  /** The receive count register for a buffer of w bytes: blocks of 2 up to 62, blocks of 32 above. */
  function EncodeRx(w: nat): half {
    if w > 62 then
      var nBlocks := (if w % 32 == 0 then w / 32 - 1 else w / 32) % 0x1_0000;
      WithBit15(nBlocks * 0x400 % 0x1_0000)
    else
      var nBlocks := if w % 2 != 0 then w / 2 + 1 else w / 2;
      nBlocks * 0x400 % 0x1_0000
  }

  /** The buffer size hardware reads out of a receive count register. */
  function Capacity(reg: half): nat {
    var nBlocks := reg / 0x400 % 32;
    if reg >= 0x8000 then (nBlocks + 1) * 32 else nBlocks * 2
  }

  function CountField(reg: half): nat {
    reg % 0x400
  }

  /** For every size up to 1024 the encoding announces the smallest size of its block kind that
      holds w bytes, and leaves the received-byte count zero. */
  lemma RxEncodingIsLeast(w: nat)
    requires 1 <= w <= 1024
    ensures var c := Capacity(EncodeRx(w));
      && w <= c
      && (w <= 62 ==> c % 2 == 0 && c < w + 2)
      && (w > 62 ==> c % 32 == 0 && c < w + 32)
      && CountField(EncodeRx(w)) == 0
  {
    hide EncodeRx, Capacity, CountField;
    if w > 62 {
      EncodeLarge(w);
      LargeBlocks((w - 1) / 32);
    } else {
      EncodeSmall(w);
      SmallBlocks((w + 1) / 2);
    }
  }

  lemma EncodeLarge(w: nat)
    requires 62 < w <= 1024
    ensures EncodeRx(w) == (w - 1) / 32 * 0x400 + 0x8000
  {
    var nBlocks := (w - 1) / 32;
    assert nBlocks == if w % 32 == 0 then w / 32 - 1 else w / 32;
    assert nBlocks < 32;
  }

  lemma EncodeSmall(w: nat)
    requires w <= 62
    ensures EncodeRx(w) == (w + 1) / 2 * 0x400
  {
    var nBlocks := (w + 1) / 2;
    assert nBlocks == if w % 2 != 0 then w / 2 + 1 else w / 2;
    assert nBlocks < 32;
  }

  lemma LargeBlocks(nBlocks: nat)
    requires nBlocks < 32
    ensures Capacity(nBlocks * 0x400 + 0x8000) == (nBlocks + 1) * 32 && CountField(nBlocks * 0x400 + 0x8000) == 0
  {
    assert (nBlocks * 0x400 + 0x8000) / 0x400 == nBlocks + 32;
  }

  lemma SmallBlocks(nBlocks: nat)
    requires nBlocks < 32
    ensures Capacity(nBlocks * 0x400) == nBlocks * 2 && CountField(nBlocks * 0x400) == 0
  {
    assert nBlocks * 0x400 / 0x400 == nBlocks;
  }

  /** Beyond 1024 the block count wraps: hardware is told a smaller buffer than was asked for. */
  lemma RxEncodingHolds(w: nat)
    requires w < 0x1_0000
    ensures w <= Capacity(EncodeRx(w)) <==> w <= 1024
  {
    if 1 <= w <= 1024 {
      RxEncodingIsLeast(w);
    }
  }
}
