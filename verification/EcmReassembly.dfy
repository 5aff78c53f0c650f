/** Frames arrive in chunks of 64 bytes, the last one shorter.  The class collects them in one buffer:
    each chunk is copied to where the endpoint was armed, and a complete frame is taken from the start of
    the buffer.  The copy moves whole halfwords, so an odd chunk brings one byte more than it has.  Memory
    is looked at from the start of the buffer on, so that a chunk that lands past its end is seen too. */
module EcmReassembly {
  import opened PacketMemory

  const CHUNK := 64
  const MAX_SEGMENT := 1514

  function Splice(m: seq<byte>, at: nat, data: seq<byte>): (r: seq<byte>)
    requires at + |data| <= |m|
    ensures |r| == |m| && r[at..at + |data|] == data && r[..at] == m[..at]
  {
    m[..at] + data + m[at + |data|..]
  }

  /** The bytes a copy moves for a chunk: `extra` completes the last halfword of an odd one. */
  function Stored(c: seq<byte>, extra: byte): (r: seq<byte>)
    ensures |r| == |c| + |c| % 2 && r[..|c|] == c
  {
    if |c| % 2 == 0 then c else c + [extra]
  }

  function Join(cs: seq<seq<byte>>): seq<byte>
    decreases cs
  {
    if cs == [] then [] else cs[0] + Join(cs[1..])
  }

  /** The chunks of one frame: full ones and then a short one. */
  predicate IsFrame(cs: seq<seq<byte>>) {
    cs != [] && |cs[|cs| - 1]| < CHUNK && forall i :: 0 <= i < |cs| - 1 ==> |cs[i]| == CHUNK
  }

  /** The buffer after the chunks, the first landing at `at` and each other one behind all before. */
  function Landed(m: seq<byte>, index: nat, at: nat, cs: seq<seq<byte>>, extra: byte): (r: seq<byte>)
    requires (cs != [] ==> at + |cs[0]| < |m|) && index + |Join(cs)| < |m|
    ensures |r| == |m|
    decreases cs
  {
    if cs == [] then m
    else
      assert cs[1..] != [] ==> Join(cs[1..]) == cs[1] + Join(cs[1..][1..]);
      Landed(Splice(m, at, Stored(cs[0], extra)), index + |cs[0]|, index + |cs[0]|, cs[1..], extra)
  }

  /** The first of several chunks. */
  lemma LandedFirst(m: seq<byte>, index: nat, at: nat, cs: seq<seq<byte>>, extra: byte)
    requires cs != [] && at + |cs[0]| < |m| && index + |Join(cs)| < |m|
    ensures Join(cs) == cs[0] + Join(cs[1..])
    ensures var i := index + |cs[0]|;
      var m1 := Splice(m, at, Stored(cs[0], extra));
      && i + |Join(cs[1..])| == index + |Join(cs)|
      && Landed(m, index, at, cs, extra) == Landed(m1, i, i, cs[1..], extra)
      && (cs[1..] == [] ==> Landed(m, index, at, cs, extra) == m1)
  {
    hide Splice, Stored;
  }

  lemma JoinFirst(cs: seq<seq<byte>>)
    requires cs != []
    ensures |cs[0]| <= |Join(cs)|
  {}

  lemma {:induction false} LandedInLine(m: seq<byte>, index: nat, cs: seq<seq<byte>>, extra: byte)
    requires index + |Join(cs)| < |m|
    ensures Landed(m, index, index, cs, extra)[..index + |Join(cs)|] == m[..index] + Join(cs)
    decreases cs
  {
    hide Splice, Stored;
    if cs == [] {
      assert m[..index] + [] == m[..index];
    } else {
      JoinFirst(cs);
      LandedFirst(m, index, index, cs, extra);
      SpliceStart(m, index, cs[0], extra);
      LandedInLine(Splice(m, index, Stored(cs[0], extra)), index + |cs[0]|, cs[1..], extra);
      Regroup(m[..index], cs[0], Join(cs[1..]));
    }
  }

  lemma Regroup(a: seq<byte>, b: seq<byte>, c: seq<byte>)
    ensures a + b + c == a + (b + c)
  {}

  lemma SpliceStart(m: seq<byte>, at: nat, c: seq<byte>, extra: byte)
    requires at + |c| < |m|
    ensures Splice(m, at, Stored(c, extra))[..at + |c|] == m[..at] + c
  {
    var m1 := Splice(m, at, Stored(c, extra));
    assert m1[at..at + |c|] == m1[at..at + |Stored(c, extra)|][..|c|];
    assert m1[..at + |c|] == m1[..at] + m1[at..at + |c|];
  }

  /** What the callback is given, for every frame, every place its first chunk may land, past the end
      included, and everything memory held: all chunks but the first are right, and the first is whatever
      the beginning of the buffer holds after it has landed. */
  lemma FrameAsReceived(m: seq<byte>, at: nat, cs: seq<seq<byte>>, extra: byte)
    requires cs != [] && at + |cs[0]| < |m| && |Join(cs)| < |m|
    ensures var frame := Landed(m, 0, at, cs, extra)[..|Join(cs)|];
      && frame == Splice(m, at, Stored(cs[0], extra))[..|cs[0]|] + Join(cs[1..])
      && (frame == Join(cs) <==> Splice(m, at, Stored(cs[0], extra))[..|cs[0]|] == cs[0])
      && (at == 0 ==> frame == Join(cs))
      && (at >= |cs[0]| ==> (frame == Join(cs) <==> m[..|cs[0]|] == cs[0]))
  {
    hide Splice, Stored;
    var c := cs[0];
    var m1 := Splice(m, at, Stored(c, extra));
    LandedInLine(m1, |c|, cs[1..], extra);
    var frame := Landed(m, 0, at, cs, extra)[..|Join(cs)|];
    assert frame == m1[..|c|] + Join(cs[1..]);
    assert frame[..|c|] == m1[..|c|] && Join(cs)[..|c|] == c;
    if at == 0 {
      SpliceStart(m, 0, c, extra);
      assert m1[..|c|] == c;
    }
    if at >= |c| {
      assert m1[..|c|] == m1[..at][..|c|] == m[..|c|];
    }
  }

  /** A frame of at most the segment size is intact when it starts at the beginning. */
  lemma FrameFits(m: seq<byte>, cs: seq<seq<byte>>, extra: byte)
    requires IsFrame(cs) && |Join(cs)| <= MAX_SEGMENT < |m|
    ensures Landed(m, 0, 0, cs, extra)[..|Join(cs)|] == Join(cs)
  {
    LandedInLine(m, 0, cs, extra);
  }

  // ---------- the end of the buffer ----------

  /** How many bytes behind the buffer a copy of a chunk of that length to `at` writes. */
  function Overrun(at: nat, length: nat): nat {
    if at + length + length % 2 <= MAX_SEGMENT then 0 else at + length + length % 2 - MAX_SEGMENT
  }

  lemma SpliceStaysInside(m: seq<byte>, at: nat, data: seq<byte>)
    requires at + |data| <= MAX_SEGMENT < |m|
    ensures Splice(m, at, data)[MAX_SEGMENT..] == m[MAX_SEGMENT..]
  {}

  /** Chunks that land in line stay inside the buffer, the completing byte of the last one included. */
  lemma {:induction false} LandedInLineStaysInside(m: seq<byte>, index: nat, cs: seq<seq<byte>>, extra: byte)
    requires (cs == [] || (index % 2 == 0 && IsFrame(cs))) && index + |Join(cs)| <= MAX_SEGMENT < |m|
    ensures Landed(m, index, index, cs, extra)[MAX_SEGMENT..] == m[MAX_SEGMENT..]
    decreases cs
  {
    hide Splice, Stored;
    if cs != [] {
      FirstOfFrame(cs);
      JoinFirst(cs);
      LandedFirst(m, index, index, cs, extra);
      assert |cs| == 1 ==> cs[1..] == [];
      SpliceStaysInside(m, index, Stored(cs[0], extra));
      LandedInLineStaysInside(Splice(m, index, Stored(cs[0], extra)), index + |cs[0]|, cs[1..], extra);
    }
  }

  /** What lies behind the buffer after a frame whose first chunk was armed at `at`, which after a lost
      frame is that frame's length: the last bytes the copy of the first chunk moved, if it reached past the
      end, and otherwise what was there. */
  lemma BehindTheBuffer(m: seq<byte>, at: nat, cs: seq<seq<byte>>, extra: byte)
    requires IsFrame(cs) && |Join(cs)| <= MAX_SEGMENT && at <= MAX_SEGMENT && MAX_SEGMENT + CHUNK < |m|
    ensures |cs[0]| <= CHUNK
    ensures var over, stored := Overrun(at, |cs[0]|), Stored(cs[0], extra);
      && over <= |stored|
      && Landed(m, 0, at, cs, extra)[MAX_SEGMENT..] == stored[|stored| - over..] + m[MAX_SEGMENT + over..]
  {
    FirstOfFrame(cs);
    var stored := Stored(cs[0], extra);
    var over := Overrun(at, |cs[0]|);
    var m1 := Splice(m, at, stored);
    if |cs| == 1 {
      assert cs[1..] == [];
    } else {
      LandedInLineStaysInside(m1, |cs[0]|, cs[1..], extra);
    }
    assert m1[MAX_SEGMENT..] == stored[|stored| - over..] + m[MAX_SEGMENT + over..];
  }

  /** Memory behind the buffer is safe from every chunk of that length copied to `at` if and only if the
      chunk, rounded up to halfwords, ends inside the buffer: one that does not can change any byte it
      reaches. */
  lemma OverrunExactly(m: seq<byte>, at: nat, length: nat)
    requires at <= MAX_SEGMENT && length <= CHUNK && MAX_SEGMENT + CHUNK < |m|
    ensures (forall c: seq<byte>, extra: byte :: |c| == length ==>
               Splice(m, at, Stored(c, extra))[MAX_SEGMENT..] == m[MAX_SEGMENT..])
       <==> at + length + length % 2 <= MAX_SEGMENT
  {
    if at + length + length % 2 <= MAX_SEGMENT {
      forall c: seq<byte>, extra: byte | |c| == length
        ensures Splice(m, at, Stored(c, extra))[MAX_SEGMENT..] == m[MAX_SEGMENT..] {}
    } else {
      var other: byte := if m[MAX_SEGMENT] == 0 then 1 else 0;
      var c := seq(length, i => other);
      var m1 := Splice(m, at, Stored(c, other));
      assert m1[MAX_SEGMENT] == Stored(c, other)[MAX_SEGMENT - at] == other;
      assert m1[MAX_SEGMENT..][0] != m[MAX_SEGMENT..][0];
    }
  }

  // ---------- the code ----------

  /** The halfword stores of a copy are aligned: Cortex-M0 takes a misaligned one for a hard fault, whose
      handler never returns. */
  predicate Aligned(at: nat, length: nat) {
    at % 2 == 0 || length == 0
  }

  /** The copy of a packet from packet memory, as bytes of the chunk and the byte after it. */
  lemma CopyIsSplice(m: seq<byte>, at: nat, pma: seq<byte>, start: nat, length: nat)
    requires length <= CHUNK && at + length < |m| && start + length < |pma|
    ensures CopyHalves(m, at, pma, start, HalfCount(length))
         == Splice(m, at, Stored(pma[start..start + length], pma[start + length]))
  {
    hide CopyHalves;
    var k := HalfCount(length);
    assert 2 * k == length + length % 2;
    CopyHalvesIsSplice(m, at, pma, start, k);
    StoredSlice(pma, start, length);
  }

  lemma StoredSlice(pma: seq<byte>, start: nat, length: nat)
    requires start + length < |pma|
    ensures pma[start..start + length + length % 2] == Stored(pma[start..start + length], pma[start + length])
  {
    var c := pma[start..start + length];
    if length % 2 == 1 {
      assert pma[start..start + length + 1] == c + [pma[start + length]];
    }
  }

  /** The class's receive state: the buffer and the memory behind it, the endpoint's packet buffer, the
      reassembly index, and where the endpoint was armed. */
  class Ecm {
    const rx: array<byte>
    const pma: array<byte>
    var index: nat
    var armedAt: nat

    constructor (behind: nat)
      ensures fresh(rx) && fresh(pma) && rx.Length == MAX_SEGMENT + behind && pma.Length == CHUNK + 1 && Valid()
      ensures index == 0 && armedAt == 0
    {
      rx := new byte[MAX_SEGMENT + behind](_ => 0);
      pma := new byte[CHUNK + 1](_ => 0);
      index, armedAt := 0, 0;
    }

    ghost predicate Valid()
      reads this`armedAt
    {
      rx != pma && pma.Length == CHUNK + 1 && armedAt <= MAX_SEGMENT
    }

    /** Hardware puts a chunk into the packet buffer. */
    method Accept(data: seq<byte>)
      requires Valid() && |data| <= CHUNK
      modifies pma
      ensures pma[0..0 + |data|] == data && pma[|data|] == old(pma[|data|])
    {
      forall i | 0 <= i < |data| {
        pma[i] := data[i];
      }
    }

    /** The driver copies the chunk to where the endpoint was armed, halfword by halfword; `fault` says that
        the processor refused to. */
    method Land(data: seq<byte>) returns (fault: bool, ghost extra: byte)
      requires Valid() && |data| <= CHUNK && armedAt + |data| < rx.Length
      modifies rx, pma
      ensures fault <==> !Aligned(armedAt, |data|)
      ensures rx[..] == if fault then old(rx[..]) else Splice(old(rx[..]), armedAt, Stored(data, extra))
      ensures extra == old(pma[|data|])
    {
      hide Splice, Stored, CopyHalves;
      extra := pma[|data|];
      Accept(data);
      assert pma[..][0..0 + |data|] == pma[0..0 + |data|];
      fault := armedAt % 2 != 0 && |data| != 0;
      if !fault {
        ReadPMA(pma, rx, armedAt, 0, |data|);
        CopyIsSplice(old(rx[..]), armedAt, pma[..], 0, |data|);
      }
    }

    /** usb_ecm_recv_renew arms at the reassembly index. */
    method Renew()
      modifies `armedAt
      ensures armedAt == index
    {
      armedAt := index;
    }

    /** The class's handler: a short chunk completes the frame, which is passed on before the index is
        reset, and without a buffer for it the callback arms again at once; a full chunk arms the endpoint
        behind what has been collected. */
    method DataOut(length: nat, hasBuffer: bool) returns (complete: bool, frame: seq<byte>)
      requires length <= CHUNK && index + length <= rx.Length
      modifies `index, `armedAt
      ensures complete == (length < CHUNK)
      ensures complete ==> frame == rx[..old(index) + length] && index == 0
      ensures complete ==> armedAt == if hasBuffer then old(armedAt) else old(index) + length
      ensures !complete ==> index == old(index) + length && armedAt == index
    {
      index := index + length;
      frame := [];
      complete := length < CHUNK;
      if complete {
        frame := rx[..index];
        if !hasBuffer {
          Renew();
        }
        index := 0;
      } else {
        Renew();
      }
    }

    /** The driver and the class over the chunks still to come of a frame; the first one may fault. */
    method Chunks(cs: seq<seq<byte>>, hasBuffer: bool) returns (fault: bool, frame: seq<byte>, ghost extra: byte)
      requires Valid() && IsFrame(cs) && index + |Join(cs)| <= MAX_SEGMENT && MAX_SEGMENT + CHUNK < rx.Length
      requires index % 2 == 0
      modifies `index, `armedAt, rx, pma
      ensures fault <==> !Aligned(old(armedAt), |cs[0]|)
      ensures fault ==> rx[..] == old(rx[..])
      ensures !fault ==> rx[..] == Landed(old(rx[..]), old(index), old(armedAt), cs, extra)
      ensures !fault ==> frame == rx[..old(index) + |Join(cs)|] && index == 0 && Valid()
      ensures !fault && !hasBuffer ==> armedAt == |frame|
      decreases cs
    {
      hide Splice, Stored, Landed, Join;
      ghost var m, at, i := rx[..], armedAt, index;
      FirstOfFrame(cs);
      JoinFirst(cs);
      fault, extra := Land(cs[0]);
      frame := [];
      if fault {
        return;
      }
      ghost var first := extra;
      var complete;
      complete, frame := DataOut(|cs[0]|, hasBuffer);
      if !complete {
        fault, frame, extra := Chunks(cs[1..], hasBuffer);
        EvenStored(cs[0], first, extra);
      }
      LandedFirst(m, i, at, cs, extra);
    }

    /** A whole frame.  Armed at an odd place, as after a lost frame of odd length, the first chunk that is
        not empty is fatal.  Otherwise what is passed on is right but for its first chunk, which is right if
        it was armed at the start of the buffer; behind the buffer lies what the copy of that chunk moved
        there; and when the frame is lost for want of a buffer, the next one is armed where this one
        ended. */
    method ReceiveFrame(cs: seq<seq<byte>>, hasBuffer: bool) returns (fault: bool, frame: seq<byte>, ghost extra: byte)
      requires Valid() && IsFrame(cs) && index == 0 && |Join(cs)| <= MAX_SEGMENT && MAX_SEGMENT + CHUNK < rx.Length
      modifies `index, `armedAt, rx, pma
      ensures fault <==> old(armedAt) % 2 == 1 && cs[0] != []
      ensures |cs[0]| <= CHUNK
      ensures !fault ==> frame == Splice(old(rx[..]), old(armedAt), Stored(cs[0], extra))[..|cs[0]|] + Join(cs[1..])
      ensures old(armedAt) == 0 ==> frame == Join(cs)
      ensures !fault ==>
        var over, stored := Overrun(old(armedAt), |cs[0]|), Stored(cs[0], extra);
        over <= |stored| && rx[MAX_SEGMENT..] == stored[|stored| - over..] + old(rx[MAX_SEGMENT + over..])
      ensures !fault ==> index == 0 && (!hasBuffer ==> armedAt == |Join(cs)|)
    {
      hide Splice, Landed, Overrun, Stored;
      ghost var m, at := rx[..], armedAt;
      FirstOfFrame(cs);
      fault, frame, extra := Chunks(cs, hasBuffer);
      if !fault {
        FrameAsReceived(m, at, cs, extra);
        BehindTheBuffer(m, at, cs, extra);
        assert rx[MAX_SEGMENT..] == rx[..][MAX_SEGMENT..];
        assert m[MAX_SEGMENT + Overrun(at, |cs[0]|)..] == old(rx[MAX_SEGMENT + Overrun(at, |cs[0]|)..]);
      }
    }
  }

  lemma EvenStored(c: seq<byte>, x: byte, y: byte)
    requires |c| % 2 == 0
    ensures Stored(c, x) == Stored(c, y)
  {}

  lemma FirstOfFrame(cs: seq<seq<byte>>)
    requires IsFrame(cs)
    ensures |cs[0]| <= CHUNK && (|cs[0]| < CHUNK <==> |cs| == 1) && (|cs| > 1 ==> IsFrame(cs[1..]))
    ensures Join(cs) == cs[0] + Join(cs[1..]) && (|cs| == 1 ==> Join(cs) == cs[0])
  {}
}
