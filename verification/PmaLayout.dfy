/** Packet-memory isolation: traffic on other endpoints leaves the buffer, descriptor, structure and
    register fields of an endpoint alone, provided the region handed to PMAConfig for it overlaps no
    other. */
module PmaLayout {
  import opened EndpointRegister
  import opened EndpointRaces
  import opened PacketMemory
  import opened PcdRegisters
  import opened Pcd
  import opened PcdInterrupt
  import opened UsbTraffic

  const PMA_SIZE := 1024
  const TABLE_SIZE := 64

  /** One direction of one endpoint. */
  datatype Key = Key(n: EpNum, isIn: bool)
  datatype Region = Region(start: half, size: nat)
  type Layout = map<Key, Region>

  predicate ValidRegion(r: Region) {
    r.start % 2 == 0 && TABLE_SIZE <= r.start && r.start + r.size <= PMA_SIZE
  }

  predicate Disjoint(a: Region, b: Region) {
    a.start + a.size <= b.start || b.start + b.size <= a.start
  }

  predicate ValidLayout(lay: Layout) {
    forall k :: k in lay ==> ValidRegion(lay[k])
  }

  /** No other direction shares a byte of k's buffer. */
  predicate Apart(lay: Layout, k: Key)
    requires k in lay
  {
    forall k' :: k' in lay && k' != k ==> Disjoint(lay[k], lay[k'])
  }

  function DescriptorAt(k: Key): nat {
    if k.isIn then TxAddressAt(k.n) else RxAddressAt(k.n)
  }

  /** Byte i of packet memory belongs to k: its two descriptor halfwords or its buffer. */
  predicate Owns(lay: Layout, k: Key, i: nat)
    requires k in lay
  {
    DescriptorAt(k) <= i < DescriptorAt(k) + 4 || lay[k].start <= i < lay[k].start + lay[k].size
  }

  lemma OwnersDisjoint(lay: Layout, k: Key, k': Key, i: nat)
    requires ValidLayout(lay) && k in lay && k' in lay && k != k' && Apart(lay, k) && Owns(lay, k, i)
    ensures !Owns(lay, k', i)
  {}

  function Even(n: nat): nat {
    n + n % 2
  }

  /** A packet size whose buffer fits the region. */
  predicate SizeFits(r: Region, isIn: bool, mps: nat) {
    mps < 0x400 && if isIn then Even(mps) <= r.size else Capacity(EncodeRx(mps)) <= r.size
  }

  // ---------- what an endpoint direction sees ----------

  /** Everything the driver and hardware use for one direction of one endpoint. */
  datatype View = View(ep: Ep, addr: half, count: half, buffer: seq<byte>, ctr: bool, stat: Stat, dtog: bool)

  predicate PmaSized(d: Device) {
    |d.pma| == PMA_SIZE
  }

  function ViewOf(d: Device, lay: Layout, k: Key): View
    requires PmaSized(d) && k in lay && ValidRegion(lay[k])
  {
    var e := d.reg[k.n];
    var b := d.pma[lay[k].start..lay[k].start + lay[k].size];
    if k.isIn then
      View(d.inEp[k.n], GetHalf(d.pma, TxAddressAt(k.n)), GetHalf(d.pma, TxCountAt(k.n)), b, e.ctrTx, e.statTx, e.dtogTx)
    else
      View(d.outEp[k.n], GetHalf(d.pma, RxAddressAt(k.n)), GetHalf(d.pma, RxCountAt(k.n)), b, e.ctrRx, e.statRx, e.dtogRx)
  }

  /** A configured direction: single buffered, opened at its region, counts within it. */
  predicate ViewOk(v: View, r: Region, isIn: bool) {
    && !v.ep.doubleBuffer
    && v.ep.pmaAddress == r.start == v.addr
    && SizeFits(r, isIn, v.ep.maxPacket)
    && if isIn then Even(CountField(v.count)) <= r.size else Capacity(v.count) <= r.size
  }

  /** A direction that is not in use: hardware cannot run a transaction on it. */
  predicate Idle(d: Device, k: Key) {
    if k.isIn then d.reg[k.n].statTx != Valid && !d.reg[k.n].ctrTx
    else d.reg[k.n].statRx != Valid && !d.reg[k.n].ctrRx
  }

  ghost predicate Configured(d: Device, lay: Layout) {
    && ValidLayout(lay)
    && PmaSized(d)
    && (forall k :: k in lay ==> ViewOk(ViewOf(d, lay, k), lay[k], k.isIn))
    && (forall k: Key :: k !in lay ==> Idle(d, k))
  }

  /** What the configuration says about one direction. */
  lemma ConfiguredKey(d: Device, lay: Layout, k: Key)
    requires Configured(d, lay) && k in lay
    ensures ValidLayout(lay) && PmaSized(d) && ValidRegion(lay[k]) && ViewOk(ViewOf(d, lay, k), lay[k], k.isIn)
  {
    hide ViewOk, ViewOf;
  }

  /** Packet memory changed only in bytes of k. */
  predicate ChangedOnly(pma: seq<byte>, pma': seq<byte>, lay: Layout, k: Key)
    requires k in lay
  {
    |pma'| == |pma| && forall i :: 0 <= i < |pma| && !Owns(lay, k, i) ==> pma'[i] == pma[i]
  }

  lemma PutHalfOwned(pma: seq<byte>, lay: Layout, k: Key, a: nat, v: half)
    requires k in lay && DescriptorAt(k) <= a <= DescriptorAt(k) + 2
    ensures ChangedOnly(pma, PutHalf(pma, a, v), lay, k)
  {}

  lemma {:induction false} CopyHalvesPointwise(m: seq<byte>, dst: nat, from: seq<byte>, src: nat, k: nat, i: nat)
    requires i < |m| && (i < dst || dst + 2 * k <= i)
    ensures CopyHalves(m, dst, from, src, k)[i] == m[i]
    decreases k
  {
    if k != 0 {
      CopyHalvesPointwise(PutHalf(m, dst, GetHalf(from, src)), dst + 2, from, src + 2, k - 1, i);
    }
  }

  lemma CopyOwned(pma: seq<byte>, lay: Layout, k: Key, from: seq<byte>, src: nat, n: nat)
    requires k in lay && Even(n) <= lay[k].size && n < 0x400
    ensures ChangedOnly(pma, CopyHalves(pma, lay[k].start, from, src, HalfCount(n)), lay, k)
  {
    var r := CopyHalves(pma, lay[k].start, from, src, HalfCount(n));
    assert 2 * HalfCount(n) == Even(n);
    forall i | 0 <= i < |pma| && !Owns(lay, k, i) ensures r[i] == pma[i] {
      CopyHalvesPointwise(pma, lay[k].start, from, src, HalfCount(n), i);
    }
  }

  lemma ChangedOnlyTrans(a: seq<byte>, b: seq<byte>, c: seq<byte>, lay: Layout, k: Key)
    requires k in lay && ChangedOnly(a, b, lay, k) && ChangedOnly(b, c, lay, k)
    ensures ChangedOnly(a, c, lay, k)
  {}

  // ---------- one direction acting ----------

  /** d' differs from d only in what belongs to k (and in the log, user memory and address latch). */
  predicate ActedOn(d: Device, d': Device, lay: Layout, k: Key)
    requires k in lay
  {
    && ChangedOnly(d.pma, d'.pma, lay, k)
    && (forall n: EpNum :: Key(n, true) != k ==> d'.inEp[n] == d.inEp[n])
    && (forall n: EpNum :: Key(n, false) != k ==> d'.outEp[n] == d.outEp[n])
    && (forall n: EpNum :: Key(n, true) != k ==> SameTx(d.reg[n], d'.reg[n]))
    && (forall n: EpNum :: Key(n, false) != k ==> SameRx(d.reg[n], d'.reg[n]))
  }

  predicate SameTx(e: EndpointRecord, e': EndpointRecord) {
    e'.ctrTx == e.ctrTx && e'.statTx == e.statTx && e'.dtogTx == e.dtogTx
  }

  predicate SameRx(e: EndpointRecord, e': EndpointRecord) {
    e'.ctrRx == e.ctrRx && e'.statRx == e.statRx && e'.dtogRx == e.dtogRx
  }

  /** A step of one direction leaves the view of every other one that shares no buffer with it. */
  lemma ActedOnKeepsView(d: Device, d': Device, lay: Layout, k: Key, k': Key)
    requires ValidLayout(lay) && PmaSized(d) && k in lay && k' in lay && k != k' && ActedOn(d, d', lay, k)
    requires Apart(lay, k')
    ensures PmaSized(d') && ViewOf(d', lay, k') == ViewOf(d, lay, k')
  {
    forall i | 0 <= i < |d.pma| && Owns(lay, k', i) ensures d'.pma[i] == d.pma[i] {
      OwnersDisjoint(lay, k', k, i);
    }
    var r := lay[k'];
    assert d'.pma[r.start..r.start + r.size] == d.pma[r.start..r.start + r.size];
    assert forall i :: DescriptorAt(k') <= i < DescriptorAt(k') + 4 ==> d'.pma[i] == d.pma[i];
  }

  /** Buffers may overlap; descriptors never do, so every direction stays as it was configured. */
  lemma ActedOnKeepsOk(d: Device, d': Device, lay: Layout, k: Key, k': Key)
    requires ValidLayout(lay) && PmaSized(d) && k in lay && k' in lay && k != k' && ActedOn(d, d', lay, k)
    requires ViewOk(ViewOf(d, lay, k'), lay[k'], k'.isIn)
    ensures PmaSized(d') && ViewOk(ViewOf(d', lay, k'), lay[k'], k'.isIn)
  {
    hide Capacity, EncodeRx;
    forall i | DescriptorAt(k') <= i < DescriptorAt(k') + 4 ensures d'.pma[i] == d.pma[i] {
      assert !Owns(lay, k, i);
    }
  }

  lemma ActedOnKeepsConfigured(d: Device, d': Device, lay: Layout, k: Key)
    requires Configured(d, lay) && k in lay && ActedOn(d, d', lay, k)
    requires ViewOk(ViewOf(d', lay, k), lay[k], k.isIn)
    ensures Configured(d', lay)
  {
    hide ViewOk, ViewOf;
    forall k' | k' in lay ensures ViewOk(ViewOf(d', lay, k'), lay[k'], k'.isIn) {
      if k' != k { ActedOnKeepsOk(d, d', lay, k, k'); }
    }
  }

  // ---------- hardware transactions ----------

  lemma SentActs(d: Device, lay: Layout, n: EpNum)
    requires Configured(d, lay) && CanSend(d, n)
    ensures Key(n, true) in lay
    ensures ActedOn(d, Sent(d, n), lay, Key(n, true))
    ensures ViewOk(ViewOf(Sent(d, n), lay, Key(n, true)), lay[Key(n, true)], true)
  {
    hide GetHalf, EncodeRx, Capacity;
    var k := Key(n, true);
    assert k !in lay ==> Idle(d, k);
    assert ViewOk(ViewOf(d, lay, k), lay[k], k.isIn);
  }

  lemma ReceivedMemory(pma: seq<byte>, lay: Layout, k: Key, data: seq<byte>)
    requires ValidLayout(lay) && k in lay && !k.isIn && |pma| == PMA_SIZE && |data| < 0x400 && |data| <= lay[k].size
    ensures var r := lay[k];
      var reg := GetHalf(pma, RxCountAt(k.n));
      var pma' := PutHalf(PutBytes(pma, r.start, data), RxCountAt(k.n), WithCount(reg, |data|));
      && |pma'| == PMA_SIZE
      && ChangedOnly(pma, pma', lay, k)
      && GetHalf(pma', RxAddressAt(k.n)) == GetHalf(pma, RxAddressAt(k.n))
      && GetHalf(pma', RxCountAt(k.n)) == WithCount(reg, |data|)
      && pma'[r.start..r.start + |data|] == data
  {
    hide WithCount;
    var r := lay[k];
    var pma1 := PutBytes(pma, r.start, data);
    var c := WithCount(GetHalf(pma, RxCountAt(k.n)), |data|);
    assert ChangedOnly(pma, pma1, lay, k);
    PutHalfOwned(pma1, lay, k, RxCountAt(k.n), c);
    ChangedOnlyTrans(pma, pma1, PutHalf(pma1, RxCountAt(k.n), c), lay, k);
    GetPutHalf(pma1, RxCountAt(k.n), c, RxAddressAt(k.n));
    PutHalfOutside(pma1, RxCountAt(k.n), c, r.start, r.start + |data|);
    assert pma1[r.start..r.start + |data|] == data;
  }

  /** A packet in the receive buffer and a new receive half of the register: what an OUT transaction does,
      and what a SETUP does besides stopping the transmit half. */
  lemma FilledActs(d: Device, lay: Layout, n: EpNum, data: seq<byte>, e: EndpointRecord)
    requires Configured(d, lay) && Key(n, false) in lay && SameTx(d.reg[n], e)
    requires |data| < 0x400 && |data| <= Capacity(GetHalf(d.pma, RxCountAt(n)))
    ensures var d' := SetReg(Filled(d, n, data), n, e);
      && ActedOn(d, d', lay, Key(n, false))
      && ViewOk(ViewOf(d', lay, Key(n, false)), lay[Key(n, false)], false)
      && var v := ViewOf(d', lay, Key(n, false));
      |data| <= |v.buffer| && v.buffer[..|data|] == data && CountField(v.count) == |data|
  {
    hide EncodeRx, Capacity, WithCount, GetHalf, PutHalf, PutBytes, ChangedOnly, ActedOn, Configured;
    var k := Key(n, false);
    ConfiguredKey(d, lay, k);
    var v := ViewOf(d, lay, k);
    ReceivedMemory(d.pma, lay, k, data);
    CountKeepsBlocks(v.count, |data|);
    var d' := SetReg(Filled(d, n, data), n, e);
    ActedOnByParts(d, d', lay, k, d.outEp[n], e);
    assert d'.pma == PutHalf(PutBytes(d.pma, lay[k].start, data), RxCountAt(n), WithCount(v.count, |data|));
    SlicePrefix(d'.pma, lay[k].start, lay[k].size, |data|);
  }

  lemma ReceivedActs(d: Device, lay: Layout, n: EpNum, data: seq<byte>)
    requires Configured(d, lay) && CanReceive(d, n, data, false)
    ensures Key(n, false) in lay
    ensures ActedOn(d, Received(d, n, data, false), lay, Key(n, false))
    ensures ViewOk(ViewOf(Received(d, n, data, false), lay, Key(n, false)), lay[Key(n, false)], false)
    ensures var v := ViewOf(Received(d, n, data, false), lay, Key(n, false));
      |data| <= |v.buffer| && v.buffer[..|data|] == data && CountField(v.count) == |data|
  {
    hide Filled, Capacity, GetHalf, ViewOk, ViewOf, ActedOn;
    assert Key(n, false) !in lay ==> Idle(d, Key(n, false));
    FilledActs(d, lay, n, data, Hw(d.reg[n], RxDone(false)));
  }

  /** The transmit half of a register stopped, as a SETUP does, changes nothing but that direction. */
  lemma StoppedTxKeeps(d: Device, lay: Layout, n: EpNum, e: EndpointRecord)
    requires Configured(d, lay) && SameRx(d.reg[n], e) && e.ctrTx == d.reg[n].ctrTx && e.statTx != Valid
    ensures Configured(SetReg(d, n, e), lay)
    ensures forall k :: k in lay && k != Key(n, true) ==> ViewOf(SetReg(d, n, e), lay, k) == ViewOf(d, lay, k)
  {
    hide Capacity, EncodeRx, GetHalf;
    var d' := SetReg(d, n, e);
    forall k | k in lay
      ensures ViewOk(ViewOf(d', lay, k), lay[k], k.isIn)
      ensures k != Key(n, true) ==> ViewOf(d', lay, k) == ViewOf(d, lay, k)
    {
      assert ViewOk(ViewOf(d, lay, k), lay[k], k.isIn);
    }
    forall k: Key | k !in lay ensures Idle(d', k) { assert Idle(d, k); }
  }

  /** A SETUP: a packet received, and the transmit half of that endpoint stopped. */
  lemma SetupSpared(d: Device, lay: Layout, n: EpNum, data: seq<byte>, k: Key)
    requires Configured(d, lay) && CanReceive(d, n, data, true) && Key(n, false) in lay && k in lay
    ensures Spared(d, Received(d, n, data, true), lay, k, k.n != n)
  {
    hide Filled, Capacity, GetHalf, ViewOk, ViewOf, ActedOn, Configured;
    var e := d.reg[n].(ctrRx := true, dtogRx := true, statRx := Nak, setup := true);
    var d1 := SetReg(Filled(d, n, data), n, e);
    FilledActs(d, lay, n, data, e);
    ActedOnSpares(d, d1, lay, Key(n, false), k);
    var f := e.(dtogTx := true, statTx := Nak);
    StoppedTxKeeps(d1, lay, n, f);
    assert Received(d, n, data, true) == SetReg(d1, n, f) by { SetTwice(Filled(d, n, data), n, e, f); }
  }

  lemma SetTwice(d: Device, n: EpNum, e: EndpointRecord, f: EndpointRecord)
    ensures SetReg(SetReg(d, n, e), n, f) == SetReg(d, n, f)
  {}

  lemma CountKeepsBlocks(reg: half, count: nat)
    requires count < 0x400
    ensures Capacity(WithCount(reg, count)) == Capacity(reg) && CountField(WithCount(reg, count)) == count
  {
    var q := reg / 0x400;
    assert WithCount(reg, count) / 0x400 == q;
    assert (reg >= 0x8000) == (q >= 32) == (WithCount(reg, count) >= 0x8000);
  }

  // ---------- driver calls ----------

  function CallKey(c: ApiCall): Key
    requires !c.SetAddressCall?
  {
    if c.ReceiveCall? then Key(c.n, false)
    else if c.TransmitCall? then Key(c.n, true)
    else Key(c.n, c.isIn)
  }

  /** Calls within the configuration: endpoints that have a region, packet sizes that fit it, and no
      new buffer assignment. */
  predicate LegalCall(lay: Layout, c: ApiCall) {
    c.SetAddressCall?
    || (!c.PmaConfigCall? && CallKey(c) in lay && (c.OpenCall? ==> SizeFits(lay[CallKey(c)], c.isIn, c.mps)))
  }

  /** Stalling endpoint 0 stalls both directions; every other call acts on one direction. */
  predicate CallSpares(c: ApiCall, k: Key) {
    c.SetAddressCall? || (CallKey(c) != k && (c.SetStallCall? && c.n == 0 ==> k.n != 0))
  }

  lemma EncodeRxMonotone(a: nat, b: nat)
    requires a <= b < 0x400
    ensures Capacity(EncodeRx(a)) <= Capacity(EncodeRx(b))
  {
    if a > 0 {
      RxEncodingIsLeast(a);
      RxEncodingIsLeast(b);
    }
  }

  lemma EvenMonotone(a: nat, b: nat)
    requires a <= b
    ensures Even(a) <= Even(b)
  {}

  lemma DescriptorMemory(pma: seq<byte>, lay: Layout, k: Key, a: half, c: half)
    requires k in lay && |pma| == PMA_SIZE
    ensures var pma1 := PutHalf(pma, DescriptorAt(k), a);
      var pma2 := PutHalf(pma1, DescriptorAt(k) + 2, c);
      && |pma1| == |pma2| == PMA_SIZE
      && ChangedOnly(pma, pma1, lay, k) && ChangedOnly(pma, pma2, lay, k)
      && GetHalf(pma1, DescriptorAt(k)) == a && GetHalf(pma1, DescriptorAt(k) + 2) == GetHalf(pma, DescriptorAt(k) + 2)
      && GetHalf(pma2, DescriptorAt(k)) == a && GetHalf(pma2, DescriptorAt(k) + 2) == c
  {
    hide ChangedOnly;
    var pma1 := PutHalf(pma, DescriptorAt(k), a);
    PutHalfOwned(pma, lay, k, DescriptorAt(k), a);
    PutHalfOwned(pma1, lay, k, DescriptorAt(k) + 2, c);
    ChangedOnlyTrans(pma, pma1, PutHalf(pma1, DescriptorAt(k) + 2, c), lay, k);
    GetPutHalf(pma, DescriptorAt(k), a, DescriptorAt(k) + 2);
    GetPutHalf(pma1, DescriptorAt(k) + 2, c, DescriptorAt(k));
  }

  lemma OpenActs(d: Device, lay: Layout, c: ApiCall)
    requires Configured(d, lay) && LegalCall(lay, c) && c.OpenCall?
    ensures ActedOn(d, Call(d, c), lay, CallKey(c))
    ensures ViewOk(ViewOf(Call(d, c), lay, CallKey(c)), lay[CallKey(c)], c.isIn)
  {
    var k := CallKey(c);
    assert ViewOk(ViewOf(d, lay, k), lay[k], k.isIn);
    assert lay[k].start / 2 * 2 == lay[k].start;
    if c.isIn { OpenInActs(d, lay, c); } else { OpenOutActs(d, lay, c); }
  }

  lemma OpenKeepsOtherHalf(c: ApiCall, e: EndpointRecord)
    requires c.OpenCall?
    ensures var f := OpenUpdate(c.n, c.isIn, c.t, e, false); if c.isIn then SameRx(e, f) else SameTx(e, f)
  {
    hide OrAddress, TypeOfCode;
  }

  lemma OpenInActs(d: Device, lay: Layout, c: ApiCall)
    requires Configured(d, lay) && LegalCall(lay, c) && c.OpenCall? && c.isIn
    requires ViewOk(ViewOf(d, lay, CallKey(c)), lay[CallKey(c)], true)
    requires lay[CallKey(c)].start / 2 * 2 == lay[CallKey(c)].start
    ensures ActedOn(d, Call(d, c), lay, CallKey(c))
    ensures ViewOk(ViewOf(Call(d, c), lay, CallKey(c)), lay[CallKey(c)], c.isIn)
  {
    hide EncodeRx, Capacity, OpenUpdate, GetHalf, PutHalf, ChangedOnly, ActedOn, Configured;
    var k := CallKey(c);
    ConfiguredKey(d, lay, k);
    OpenKeepsOtherHalf(c, d.reg[c.n]);
    DescriptorMemory(d.pma, lay, k, lay[k].start, 0);
    assert Call(d, c).pma == PutHalf(d.pma, DescriptorAt(k), lay[k].start);
    ActedOnByParts(d, Call(d, c), lay, k, GetEp(Call(d, c), c.n, c.isIn), Call(d, c).reg[c.n]);
  }

  lemma OpenOutActs(d: Device, lay: Layout, c: ApiCall)
    requires Configured(d, lay) && LegalCall(lay, c) && c.OpenCall? && !c.isIn
    requires ViewOk(ViewOf(d, lay, CallKey(c)), lay[CallKey(c)], false)
    requires lay[CallKey(c)].start / 2 * 2 == lay[CallKey(c)].start
    ensures ActedOn(d, Call(d, c), lay, CallKey(c))
    ensures ViewOk(ViewOf(Call(d, c), lay, CallKey(c)), lay[CallKey(c)], c.isIn)
  {
    hide EncodeRx, Capacity, OpenUpdate, GetHalf, PutHalf, ChangedOnly, ActedOn, Configured;
    var k := CallKey(c);
    ConfiguredKey(d, lay, k);
    OpenKeepsOtherHalf(c, d.reg[c.n]);
    DescriptorMemory(d.pma, lay, k, lay[k].start, EncodeRx(c.mps));
    assert Call(d, c).pma == PutHalf(PutHalf(d.pma, DescriptorAt(k), lay[k].start), DescriptorAt(k) + 2, EncodeRx(c.mps));
    ActedOnByParts(d, Call(d, c), lay, k, GetEp(Call(d, c), c.n, c.isIn), Call(d, c).reg[c.n]);
  }

  lemma ReceiveActs(d: Device, lay: Layout, n: EpNum, buf: nat, len: nat)
    requires Configured(d, lay) && Key(n, false) in lay
    ensures ActedOn(d, Receive(d, n, buf, len), lay, Key(n, false))
    ensures ViewOk(ViewOf(Receive(d, n, buf, len), lay, Key(n, false)), lay[Key(n, false)], false)
  {
    hide EncodeRx, Capacity, GetHalf, PutHalf, ChangedOnly, ActedOn, Configured;
    var k := Key(n, false);
    ConfiguredKey(d, lay, k);
    var w := Chunk(len, d.outEp[n].maxPacket);
    EncodeRxMonotone(w, d.outEp[n].maxPacket);
    PutHalfOwned(d.pma, lay, k, RxCountAt(n), EncodeRx(w));
    GetPutHalf(d.pma, RxCountAt(n), EncodeRx(w), RxAddressAt(n));
    var d' := Receive(d, n, buf, len);
    ActedOnByParts(d, d', lay, k, d'.outEp[n], d'.reg[n]);
  }

  lemma TransmitMemory(pma: seq<byte>, lay: Layout, k: Key, ram: seq<byte>, buf: nat, w: nat)
    requires ValidLayout(lay) && k in lay && k.isIn && |pma| == PMA_SIZE && w < 0x400 && Even(w) <= lay[k].size
    ensures var pma' := PutHalf(CopyHalves(pma, lay[k].start, ram, buf, HalfCount(w)), TxCountAt(k.n), w % 0x1_0000);
      && ChangedOnly(pma, pma', lay, k)
      && GetHalf(pma', TxAddressAt(k.n)) == GetHalf(pma, TxAddressAt(k.n))
      && GetHalf(pma', TxCountAt(k.n)) == w
  {
    hide CopyHalves, ChangedOnly;
    var pma1 := CopyHalves(pma, lay[k].start, ram, buf, HalfCount(w));
    CopyOwned(pma, lay, k, ram, buf, w);
    CopyHalvesOutside(pma, lay[k].start, ram, buf, HalfCount(w), TxAddressAt(k.n), TxAddressAt(k.n) + 2);
    SliceHalf(pma1, pma, TxAddressAt(k.n));
    PutHalfOwned(pma1, lay, k, TxCountAt(k.n), w);
    GetPutHalf(pma1, TxCountAt(k.n), w, TxAddressAt(k.n));
    ChangedOnlyTrans(pma, pma1, PutHalf(pma1, TxCountAt(k.n), w), lay, k);
  }

  /** A step that changes memory of k alone, its structure and its half of the register acts on k. */
  lemma ActedOnByParts(d: Device, d': Device, lay: Layout, k: Key, ep: Ep, e: EndpointRecord)
    requires k in lay && ChangedOnly(d.pma, d'.pma, lay, k)
    requires d'.reg == d.reg[k.n := e] && if k.isIn then SameRx(d.reg[k.n], e) else SameTx(d.reg[k.n], e)
    requires if k.isIn then d'.inEp == d.inEp[k.n := ep] && d'.outEp == d.outEp
             else d'.outEp == d.outEp[k.n := ep] && d'.inEp == d.inEp
    ensures ActedOn(d, d', lay, k)
  {
    hide ChangedOnly;
  }

  lemma TransmitActs(d: Device, lay: Layout, n: EpNum, buf: nat, len: nat)
    requires Configured(d, lay) && Key(n, true) in lay
    ensures ActedOn(d, Transmit(d, n, buf, len), lay, Key(n, true))
    ensures ViewOk(ViewOf(Transmit(d, n, buf, len), lay, Key(n, true)), lay[Key(n, true)], true)
  {
    hide EncodeRx, Capacity, CopyHalves, PutHalf, GetHalf, ChangedOnly, ActedOn, Configured;
    var k := Key(n, true);
    ConfiguredKey(d, lay, k);
    var w := Chunk(len, d.inEp[n].maxPacket);
    EvenMonotone(w, d.inEp[n].maxPacket);
    TransmitMemory(d.pma, lay, k, d.ram, buf, w);
    var d' := Transmit(d, n, buf, len);
    assert d'.pma == PutHalf(CopyHalves(d.pma, lay[k].start, d.ram, buf, HalfCount(w)), TxCountAt(n), w % 0x1_0000);
    ActedOnByParts(d, d', lay, k, d'.inEp[n], d'.reg[n]);
  }

  lemma SliceHalf(a: seq<byte>, b: seq<byte>, i: nat)
    requires |a| == |b| && i + 2 <= |a| && a[i..i + 2] == b[i..i + 2]
    ensures GetHalf(a, i) == GetHalf(b, i)
  {
    assert a[i] == a[i..i + 2][0] && a[i + 1] == a[i..i + 2][1];
    assert b[i] == b[i..i + 2][0] && b[i + 1] == b[i..i + 2][1];
  }

  predicate SamePlacement(e: Ep, e': Ep) {
    e'.doubleBuffer == e.doubleBuffer && e'.pmaAddress == e.pmaAddress && e'.maxPacket == e.maxPacket
  }

  /** A step of k that keeps its descriptor, and of its structure the placement, keeps the view legal. */
  lemma PlacedActs(d: Device, d': Device, lay: Layout, k: Key, ep: Ep, e: EndpointRecord)
    requires Configured(d, lay) && k in lay && |d'.pma| == PMA_SIZE && ChangedOnly(d.pma, d'.pma, lay, k)
    requires GetHalf(d'.pma, DescriptorAt(k)) == GetHalf(d.pma, DescriptorAt(k))
    requires GetHalf(d'.pma, DescriptorAt(k) + 2) == GetHalf(d.pma, DescriptorAt(k) + 2)
    requires d'.reg == d.reg[k.n := e] && if k.isIn then SameRx(d.reg[k.n], e) else SameTx(d.reg[k.n], e)
    requires SamePlacement(GetEp(d, k.n, k.isIn), ep)
    requires if k.isIn then d'.inEp == d.inEp[k.n := ep] && d'.outEp == d.outEp
             else d'.outEp == d.outEp[k.n := ep] && d'.inEp == d.inEp
    ensures ActedOn(d, d', lay, k)
    ensures ViewOk(ViewOf(d', lay, k), lay[k], k.isIn)
  {
    hide EncodeRx, Capacity, GetHalf, ChangedOnly, ActedOn, Configured;
    ConfiguredKey(d, lay, k);
    ActedOnByParts(d, d', lay, k, ep, e);
  }

  lemma ChangedOnlyRefl(pma: seq<byte>, lay: Layout, k: Key)
    requires k in lay
    ensures ChangedOnly(pma, pma, lay, k)
  {}

  /** Close, SetStall and ClrStall touch no memory. */
  lemma StatusCallActs(d: Device, lay: Layout, c: ApiCall)
    requires Configured(d, lay) && LegalCall(lay, c)
    requires c.CloseCall? || c.ClrStallCall? || (c.SetStallCall? && c.n != 0)
    ensures ActedOn(d, Call(d, c), lay, CallKey(c))
    ensures ViewOk(ViewOf(Call(d, c), lay, CallKey(c)), lay[CallKey(c)], CallKey(c).isIn)
  {
    hide ActedOn, GetHalf, Capacity, EncodeRx, ChangedOnly;
    var k := CallKey(c);
    var ep := GetEp(d, c.n, c.isIn);
    assert ViewOk(ViewOf(d, lay, k), lay[k], k.isIn);
    var e := RegisterUpdate(c, d.reg[c.n], false);
    ChangedOnlyRefl(d.pma, lay, k);
    PlacedActs(d, Call(d, c), lay, k, if c.CloseCall? then ep else ep.(isStall := c.SetStallCall?), e);
  }

  lemma StallZeroKeeps(d: Device, lay: Layout, c: ApiCall)
    requires Configured(d, lay) && LegalCall(lay, c) && c.SetStallCall? && c.n == 0
    ensures Configured(Call(d, c), lay)
    ensures forall k :: k in lay && k.n != 0 ==> ViewOf(Call(d, c), lay, k) == ViewOf(d, lay, k)
  {
    hide ViewOk, ViewOf, Call, Idle;
    var d' := Call(d, c);
    assert PmaSized(d') by { StallZeroPma(d, c); }
    forall k | k in lay
      ensures ViewOk(ViewOf(d', lay, k), lay[k], k.isIn)
      ensures k.n != 0 ==> ViewOf(d', lay, k) == ViewOf(d, lay, k)
    {
      StallZeroView(d, lay, c, k);
    }
    forall k: Key | k !in lay ensures Idle(d', k) {
      assert Idle(d, k);
      StallZeroIdle(d, c, k);
    }
  }

  lemma StallZeroPma(d: Device, c: ApiCall)
    requires c.SetStallCall?
    ensures Call(d, c).pma == d.pma
  {}

  lemma StallZeroIdle(d: Device, c: ApiCall, k: Key)
    requires c.SetStallCall? && c.n == 0 && Idle(d, k)
    ensures Idle(Call(d, c), k)
  {}

  lemma StallZeroView(d: Device, lay: Layout, c: ApiCall, k: Key)
    requires PmaSized(d) && k in lay && ValidRegion(lay[k]) && c.SetStallCall? && c.n == 0
    requires ViewOk(ViewOf(d, lay, k), lay[k], k.isIn)
    ensures PmaSized(Call(d, c)) && ViewOk(ViewOf(Call(d, c), lay, k), lay[k], k.isIn)
    ensures k.n != 0 ==> ViewOf(Call(d, c), lay, k) == ViewOf(d, lay, k)
  {
    hide EncodeRx, Capacity, GetHalf;
  }

  /** The configuration holds on, and the spared direction sees nothing if its buffer is its own. */
  ghost predicate Keeps(d: Device, d': Device, lay: Layout, k: Key)
    requires Configured(d, lay) && k in lay
  {
    Configured(d', lay) && (Apart(lay, k) ==> ViewOf(d', lay, k) == ViewOf(d, lay, k))
  }

  lemma ActedOnKeeps(d: Device, d': Device, lay: Layout, k: Key, k': Key)
    requires Configured(d, lay) && k in lay && k' in lay && k != k' && ActedOn(d, d', lay, k)
    requires ViewOk(ViewOf(d', lay, k), lay[k], k.isIn)
    ensures Keeps(d, d', lay, k')
  {
    hide ViewOk, ViewOf, ActedOn;
    ActedOnKeepsConfigured(d, d', lay, k);
    if Apart(lay, k') { ActedOnKeepsView(d, d', lay, k, k'); }
  }

  lemma CallKeepsConfigured(d: Device, lay: Layout, c: ApiCall)
    requires Configured(d, lay) && LegalCall(lay, c)
    ensures Configured(Call(d, c), lay)
  {
    hide ViewOk, ViewOf, ActedOn, Open, Close, Receive, Transmit, SetStall, ClrStall;
    if c.SetAddressCall? {
      SameViews(d, Call(d, c), lay);
    } else if c.SetStallCall? && c.n == 0 {
      StallZeroKeeps(d, lay, c);
    } else {
      CallActs(d, lay, c);
      ActedOnKeepsConfigured(d, Call(d, c), lay, CallKey(c));
    }
  }

  lemma CallSparesView(d: Device, lay: Layout, c: ApiCall, k: Key)
    requires Configured(d, lay) && LegalCall(lay, c) && CallSpares(c, k) && k in lay
    ensures Keeps(d, Call(d, c), lay, k)
  {
    hide ViewOk, ViewOf, ActedOn, Open, Close, Receive, Transmit, SetStall, ClrStall;
    CallKeepsConfigured(d, lay, c);
    if c.SetAddressCall? {
      SameViews(d, Call(d, c), lay);
    } else if c.SetStallCall? && c.n == 0 {
      StallZeroKeeps(d, lay, c);
    } else {
      CallActs(d, lay, c);
      ActedOnKeeps(d, Call(d, c), lay, CallKey(c), k);
    }
  }

  lemma SameViews(d: Device, d': Device, lay: Layout)
    requires Configured(d, lay) && d'.pma == d.pma && d'.reg == d.reg && d'.inEp == d.inEp && d'.outEp == d.outEp
    ensures Configured(d', lay)
    ensures forall k :: k in lay ==> ViewOf(d', lay, k) == ViewOf(d, lay, k)
  {
    hide ViewOk, GetHalf;
    forall k: Key | k !in lay ensures Idle(d', k) { assert Idle(d, k); }
    forall k | k in lay ensures ViewOf(d', lay, k) == ViewOf(d, lay, k) {}
  }

  lemma CallActs(d: Device, lay: Layout, c: ApiCall)
    requires Configured(d, lay) && LegalCall(lay, c) && !c.SetAddressCall? && !(c.SetStallCall? && c.n == 0)
    ensures ActedOn(d, Call(d, c), lay, CallKey(c))
    ensures ViewOk(ViewOf(Call(d, c), lay, CallKey(c)), lay[CallKey(c)], CallKey(c).isIn)
  {
    hide ViewOk, ViewOf, ActedOn, Open, Close, Receive, Transmit, SetStall, ClrStall, Configured;
    match c
    case OpenCall(n, isIn, mps, t) => OpenActs(d, lay, c);
    case ReceiveCall(n, buf, len) => ReceiveActs(d, lay, n, buf, len);
    case TransmitCall(n, buf, len) => TransmitActs(d, lay, n, buf, len);
    case CloseCall(n, isIn) => StatusCallActs(d, lay, c);
    case SetStallCall(n, isIn) => StatusCallActs(d, lay, c);
    case ClrStallCall(n, isIn) => StatusCallActs(d, lay, c);
  }

  predicate LegalCalls(lay: Layout, cs: seq<ApiCall>) {
    forall c :: c in cs ==> LegalCall(lay, c)
  }

  predicate CallsSpare(cs: seq<ApiCall>, k: Key) {
    forall c :: c in cs ==> CallSpares(c, k)
  }

  lemma {:induction false} RunCallsKeep(d: Device, lay: Layout, cs: seq<ApiCall>, k: Key)
    requires Configured(d, lay) && LegalCalls(lay, cs) && k in lay
    ensures Configured(RunCalls(d, cs), lay)
    ensures CallsSpare(cs, k) ==> Keeps(d, RunCalls(d, cs), lay, k)
    decreases cs
  {
    hide Call, LegalCall, CallSpares, Configured, ViewOf;
    if cs != [] {
      assert cs[0] in cs;
      CallKeepsConfigured(d, lay, cs[0]);
      RunCallsKeep(Call(d, cs[0]), lay, cs[1..], k);
      if CallsSpare(cs, k) { CallSparesView(d, lay, cs[0], k); }
    }
  }

  /** An application whose callbacks stay within the configuration. */
  ghost predicate LegalApp(app: App, lay: Layout) {
    forall d: Device :: LegalCalls(lay, app(d))
  }

  /** The event that ends a transfer on k. */
  function DoneEvent(k: Key): Event {
    if k.isIn then DataIn(k.n) else DataOut(k.n)
  }

  /** Callbacks leave k alone, except the one that reports a transfer on k as done. */
  ghost predicate AppSpares(app: App, k: Key) {
    forall d: Device :: d.log != [] && d.log[|d.log| - 1] != DoneEvent(k) ==> CallsSpare(app(d), k)
  }

  lemma CallbackKeeps(d: Device, e: Event, app: App, lay: Layout, k: Key)
    requires Configured(d, lay) && LegalApp(app, lay) && k in lay
    ensures Configured(Callback(d, e, app), lay)
    ensures AppSpares(app, k) && e != DoneEvent(k) ==> Keeps(d, Callback(d, e, app), lay, k)
  {
    hide ViewOk, ViewOf, LegalCalls, CallsSpare;
    SameViews(d, Note(d, e), lay);
    RunCallsKeep(Note(d, e), lay, app(Note(d, e)), k);
  }

  // ---------- interrupt service ----------

  lemma AcceptOutActs(d: Device, lay: Layout, n: EpNum)
    requires Configured(d, lay) && Key(n, false) in lay
    ensures ActedOn(d, AcceptOut(d, n), lay, Key(n, false))
    ensures ViewOk(ViewOf(AcceptOut(d, n), lay, Key(n, false)), lay[Key(n, false)], false)
  {
    hide EncodeRx, Capacity, GetHalf, CopyHalves, ChangedOnly, ActedOn;
    var k := Key(n, false);
    assert ViewOk(ViewOf(d, lay, k), lay[k], k.isIn);
    ChangedOnlyRefl(d.pma, lay, k);
    var d' := AcceptOut(d, n);
    PlacedActs(d, d', lay, k, d'.outEp[n], d'.reg[n]);
  }

  lemma RecopyMemory(pma: seq<byte>, lay: Layout, k: Key, ram: seq<byte>, buf: nat, w: nat)
    requires ValidLayout(lay) && k in lay && k.isIn && |pma| == PMA_SIZE && w < 0x400 && Even(w) <= lay[k].size
    ensures var pma' := CopyHalves(pma, lay[k].start, ram, buf, HalfCount(w));
      && ChangedOnly(pma, pma', lay, k)
      && GetHalf(pma', TxAddressAt(k.n)) == GetHalf(pma, TxAddressAt(k.n))
      && GetHalf(pma', TxCountAt(k.n)) == GetHalf(pma, TxCountAt(k.n))
  {
    hide CopyHalves, ChangedOnly;
    var pma' := CopyHalves(pma, lay[k].start, ram, buf, HalfCount(w));
    CopyOwned(pma, lay, k, ram, buf, w);
    CopyHalvesOutside(pma, lay[k].start, ram, buf, HalfCount(w), TxAddressAt(k.n), TxAddressAt(k.n) + 2);
    SliceHalf(pma', pma, TxAddressAt(k.n));
    CopyHalvesOutside(pma, lay[k].start, ram, buf, HalfCount(w), TxCountAt(k.n), TxCountAt(k.n) + 2);
    SliceHalf(pma', pma, TxCountAt(k.n));
  }

  lemma FinishInActs(d: Device, lay: Layout, n: EpNum)
    requires Configured(d, lay) && Key(n, true) in lay
    ensures ActedOn(d, FinishIn(d, n), lay, Key(n, true))
    ensures ViewOk(ViewOf(FinishIn(d, n), lay, Key(n, true)), lay[Key(n, true)], true)
  {
    hide EncodeRx, Capacity, GetHalf, CopyHalves, ChangedOnly, ActedOn;
    var k := Key(n, true);
    assert ViewOk(ViewOf(d, lay, k), lay[k], k.isIn);
    RecopyMemory(d.pma, lay, k, d.ram, d.inEp[n].xferBuff, TxCount(d, n));
    ChangedOnlyRefl(d.pma, lay, k);
    var d' := FinishIn(d, n);
    PlacedActs(d, d', lay, k, d'.inEp[n], d'.reg[n]);
  }

  lemma FinishEp0InActs(d: Device, lay: Layout)
    requires Configured(d, lay) && Key(0, true) in lay
    ensures ActedOn(d, FinishEp0In(d), lay, Key(0, true))
    ensures ViewOk(ViewOf(FinishEp0In(d), lay, Key(0, true)), lay[Key(0, true)], true)
  {
    hide EncodeRx, Capacity, GetHalf, ChangedOnly, ActedOn;
    var k := Key(0, true);
    assert ViewOk(ViewOf(d, lay, k), lay[k], k.isIn);
    ChangedOnlyRefl(d.pma, lay, k);
    var d' := FinishEp0In(d);
    PlacedActs(d, d', lay, k, d'.inEp[0], d'.reg[0]);
  }

  lemma AcceptEp0Acts(d: Device, lay: Layout)
    requires Configured(d, lay) && Key(0, false) in lay
    ensures ActedOn(d, AcceptSetup(d), lay, Key(0, false))
    ensures ViewOk(ViewOf(AcceptSetup(d), lay, Key(0, false)), lay[Key(0, false)], false)
    ensures ActedOn(d, AcceptEp0Out(d), lay, Key(0, false))
    ensures ViewOk(ViewOf(AcceptEp0Out(d), lay, Key(0, false)), lay[Key(0, false)], false)
  {
    hide EncodeRx, Capacity, GetHalf, CopyHalves, ChangedOnly, ActedOn;
    var k := Key(0, false);
    assert ViewOk(ViewOf(d, lay, k), lay[k], k.isIn);
    ChangedOnlyRefl(d.pma, lay, k);
    var d1, d2 := AcceptSetup(d), AcceptEp0Out(d);
    PlacedActs(d, d1, lay, k, d1.outEp[0], d1.reg[0]);
    PlacedActs(d, d2, lay, k, d2.outEp[0], d2.reg[0]);
  }

  lemma RearmEp0Acts(d: Device, lay: Layout)
    requires Configured(d, lay) && Key(0, false) in lay
    ensures ActedOn(d, RearmEp0(d), lay, Key(0, false))
    ensures ViewOk(ViewOf(RearmEp0(d), lay, Key(0, false)), lay[Key(0, false)], false)
  {
    hide EncodeRx, Capacity, GetHalf, PutHalf, ChangedOnly;
    var k := Key(0, false);
    var v := EncodeRx(d.outEp[0].maxPacket);
    assert ViewOk(ViewOf(d, lay, k), lay[k], k.isIn);
    PutHalfOwned(d.pma, lay, k, RxCountAt(0), v);
    GetPutHalf(d.pma, RxCountAt(0), v, RxAddressAt(0));
  }

  lemma FlaggedIsConfigured(d: Device, lay: Layout, n: EpNum)
    requires Configured(d, lay)
    ensures d.reg[n].ctrRx || d.reg[n].statRx == Valid ==> Key(n, false) in lay
    ensures d.reg[n].ctrTx || d.reg[n].statTx == Valid ==> Key(n, true) in lay
  {
    hide ViewOk;
    assert Key(n, false) !in lay ==> Idle(d, Key(n, false));
    assert Key(n, true) !in lay ==> Idle(d, Key(n, true));
  }

  /** The spared direction k sees nothing of a step, whatever the step is made of, if its buffer is
      its own. */
  ghost predicate Spared(d: Device, d': Device, lay: Layout, k: Key, spare: bool)
    requires Configured(d, lay) && k in lay
  {
    Configured(d', lay) && (spare && Apart(lay, k) ==> ViewOf(d', lay, k) == ViewOf(d, lay, k))
  }

  lemma ActedOnSpares(d: Device, d': Device, lay: Layout, a: Key, k: Key)
    requires Configured(d, lay) && a in lay && k in lay && ActedOn(d, d', lay, a)
    requires ViewOk(ViewOf(d', lay, a), lay[a], a.isIn)
    ensures Spared(d, d', lay, k, a != k)
  {
    hide ViewOk, ViewOf, ActedOn;
    ActedOnKeepsConfigured(d, d', lay, a);
    if a != k && Apart(lay, k) { ActedOnKeepsView(d, d', lay, a, k); }
  }

  lemma CallSpared(d: Device, lay: Layout, c: ApiCall, k: Key)
    requires Configured(d, lay) && LegalCall(lay, c) && k in lay
    ensures Spared(d, Call(d, c), lay, k, CallSpares(c, k))
  {
    hide Call, LegalCall, CallSpares, Configured, ViewOf;
    CallKeepsConfigured(d, lay, c);
    if CallSpares(c, k) { CallSparesView(d, lay, c, k); }
  }

  lemma CallbackSpared(d: Device, e: Event, app: App, lay: Layout, k: Key)
    requires Configured(d, lay) && LegalApp(app, lay) && k in lay
    ensures Spared(d, Callback(d, e, app), lay, k, AppSpares(app, k) && e != DoneEvent(k))
  {
    hide Callback, Configured, ViewOf, LegalApp, AppSpares;
    CallbackKeeps(d, e, app, lay, k);
  }

  lemma ServeOutSpared(d: Device, n: EpNum, app: App, lay: Layout, k: Key)
    requires Configured(d, lay) && LegalApp(app, lay) && k in lay && Key(n, false) in lay
    ensures Spared(d, ServeOut(d, n, app), lay, k, Key(n, false) != k && AppSpares(app, k))
  {
    hide AcceptOut, ViewOk, ViewOf, ActedOn, PacketSize, Callback, Receive, LegalApp, AppSpares, Configured;
    var d3 := AcceptOut(d, n);
    AcceptOutActs(d, lay, n);
    ActedOnSpares(d, d3, lay, Key(n, false), k);
    CallbackSpared(d3, DataOut(n), app, lay, k);
    var ep := d3.outEp[n];
    NoteSpared(d3, ContinueOut(n), lay, k);
    CallSpared(Note(d3, ContinueOut(n)), lay, ReceiveCall(n, ep.xferBuff, ep.xferLen), k);
  }

  lemma ServeInSpared(d: Device, n: EpNum, app: App, lay: Layout, k: Key)
    requires Configured(d, lay) && LegalApp(app, lay) && k in lay && Key(n, true) in lay
    ensures Spared(d, ServeIn(d, n, app), lay, k, Key(n, true) != k && AppSpares(app, k))
  {
    hide FinishIn, ViewOk, ViewOf, ActedOn, Callback, Transmit, LegalApp, AppSpares, Configured;
    var d3 := FinishIn(d, n);
    FinishInActs(d, lay, n);
    ActedOnSpares(d, d3, lay, Key(n, true), k);
    CallbackSpared(d3, DataIn(n), app, lay, k);
    var ep := d3.inEp[n];
    NoteSpared(d3, ContinueIn(n), lay, k);
    CallSpared(Note(d3, ContinueIn(n)), lay, TransmitCall(n, ep.xferBuff, ep.xferLen), k);
  }

  lemma NoteSpared(d: Device, e: Event, lay: Layout, k: Key)
    requires Configured(d, lay) && k in lay
    ensures Configured(Note(d, e), lay) && ViewOf(Note(d, e), lay, k) == ViewOf(d, lay, k)
  {
    hide ViewOk, ViewOf;
    SameViews(d, Note(d, e), lay);
  }

  lemma ServeEp0Spared(d: Device, app: App, lay: Layout, k: Key)
    requires Configured(d, lay) && LegalApp(app, lay) && k in lay && Pending(d, 0)
    ensures Spared(d, ServeEp0(d, app), lay, k, Key(0, !d.reg[0].ctrRx) != k && AppSpares(app, k))
  {
    hide FinishEp0In, AcceptSetup, AcceptEp0Out, RearmEp0, ViewOk, ViewOf, ActedOn, Callback, LegalApp, AppSpares, Configured;
    FlaggedIsConfigured(d, lay, 0);
    if !d.reg[0].ctrRx {
      var d1 := FinishEp0In(d);
      FinishEp0InActs(d, lay);
      ActedOnSpares(d, d1, lay, Key(0, true), k);
      CallbackSpared(d1, DataIn(0), app, lay, k);
      ApplySpared(Callback(d1, DataIn(0), app), lay, k);
    } else if d.reg[0].setup {
      AcceptEp0Acts(d, lay);
      ActedOnSpares(d, AcceptSetup(d), lay, Key(0, false), k);
      CallbackSpared(AcceptSetup(d), SetupStage, app, lay, k);
    } else {
      AcceptEp0Acts(d, lay);
      ActedOnSpares(d, AcceptEp0Out(d), lay, Key(0, false), k);
      CallbackSpared(AcceptEp0Out(d), DataOut(0), app, lay, k);
      var d3 := Callback(AcceptEp0Out(d), DataOut(0), app);
      RearmEp0Acts(d3, lay);
      ActedOnSpares(d3, RearmEp0(d3), lay, Key(0, false), k);
    }
  }

  lemma ApplySpared(d: Device, lay: Layout, k: Key)
    requires Configured(d, lay) && k in lay
    ensures Configured(ApplyAddress(d), lay) && ViewOf(ApplyAddress(d), lay, k) == ViewOf(d, lay, k)
  {
    hide ViewOk, ViewOf;
    SameViews(d, ApplyAddress(d), lay);
  }

  /** A turn for endpoint n spares k unless k's own flag is the one served. */
  predicate TurnSpares(d: Device, n: EpNum, k: Key) {
    if n == 0 then Key(0, !d.reg[0].ctrRx) != k
    else k.n != n || !(if k.isIn then d.reg[n].ctrTx else d.reg[n].ctrRx)
  }

  lemma TurnSpared(d: Device, n: EpNum, app: App, lay: Layout, k: Key)
    requires Configured(d, lay) && LegalApp(app, lay) && k in lay && Pending(d, n)
    ensures Spared(d, ServeEndpoint(d, n, app), lay, k, TurnSpares(d, n, k) && AppSpares(app, k))
  {
    hide ServeOut, ServeIn, ServeEp0, ViewOf, Configured, LegalApp, AppSpares;
    FlaggedIsConfigured(d, lay, n);
    if n == 0 {
      ServeEp0Spared(d, app, lay, k);
    } else {
      var d1 := if d.reg[n].ctrRx then ServeOut(d, n, app) else d;
      if d.reg[n].ctrRx { ServeOutSpared(d, n, app, lay, k); }
      if d.reg[n].ctrTx { ServeInSpared(d1, n, app, lay, k); }
    }
  }

  // ---------- any step, any run ----------

  ghost predicate LegalStep(lay: Layout, s: Step) {
    && (s.DriverCall? ==> LegalCall(lay, s.c))
    && (s.HostOut? && s.isSetup ==> Key(s.n, false) in lay)
  }

  predicate StepSpares(d: Device, s: Step, k: Key) {
    match s
    case HostIn(n) => Key(n, true) != k
    case HostOut(n, _, isSetup) => Key(n, false) != k && (isSetup ==> k.n != n)
    case DriverCall(c) => !c.PmaConfigCall? && CallSpares(c, k)
    case InterruptTurn(n) => TurnSpares(d, n, k)
  }

  lemma StepSpared(d: Device, s: Step, app: App, lay: Layout, k: Key)
    requires Configured(d, lay) && LegalApp(app, lay) && k in lay && Enabled(d, s) && LegalStep(lay, s)
    ensures Spared(d, Next(d, s, app), lay, k, StepSpares(d, s, k) && AppSpares(app, k))
  {
    hide ViewOf, ViewOk, ActedOn, Configured, LegalApp, AppSpares, Call, LegalCall, CallSpares, ServeEndpoint, TurnSpares,
      Sent, Received, CanReceive;
    match s
    case HostIn(n) =>
      SentActs(d, lay, n);
      ActedOnSpares(d, Sent(d, n), lay, Key(n, true), k);
    case HostOut(n, data, isSetup) =>
      if isSetup {
        SetupSpared(d, lay, n, data, k);
      } else {
        ReceivedActs(d, lay, n, data);
        ActedOnSpares(d, Received(d, n, data, false), lay, Key(n, false), k);
      }
    case DriverCall(c) => CallSpared(d, lay, c, k);
    case InterruptTurn(n) => TurnSpared(d, n, app, lay, k);
  }

  predicate RunEnabled(d: Device, ss: seq<Step>, app: App)
    decreases ss
  {
    ss == [] || (Enabled(d, ss[0]) && RunEnabled(Next(d, ss[0], app), ss[1..], app))
  }

  function Run(d: Device, ss: seq<Step>, app: App): Device
    requires RunEnabled(d, ss, app)
    decreases ss
  {
    if ss == [] then d else Run(Next(d, ss[0], app), ss[1..], app)
  }

  /** No step of the run is one of k's own. */
  predicate RunSpares(d: Device, ss: seq<Step>, app: App, k: Key)
    requires RunEnabled(d, ss, app)
    decreases ss
  {
    ss == [] || (StepSpares(d, ss[0], k) && RunSpares(Next(d, ss[0], app), ss[1..], app, k))
  }

  /** Isolation over whole runs: as long as traffic, calls and callbacks leave direction k alone and no
      other buffer overlaps its own, its buffer, descriptor, endpoint structure and register fields stay
      as they were.  The other buffers may overlap each other. */
  lemma {:induction false} Isolation(d: Device, ss: seq<Step>, app: App, lay: Layout, k: Key)
    requires Configured(d, lay) && LegalApp(app, lay) && k in lay
    requires RunEnabled(d, ss, app) && forall s :: s in ss ==> LegalStep(lay, s)
    ensures Configured(Run(d, ss, app), lay)
    ensures RunSpares(d, ss, app, k) && AppSpares(app, k) && Apart(lay, k) ==>
      ViewOf(Run(d, ss, app), lay, k) == ViewOf(d, lay, k)
    decreases ss
  {
    hide ViewOf, Configured, LegalApp, AppSpares, LegalStep, StepSpares, Next, Enabled;
    if ss != [] {
      assert ss[0] in ss;
      StepSpared(d, ss[0], app, lay, k);
      Isolation(Next(d, ss[0], app), ss[1..], app, lay, k);
    }
  }

  // ---------- completions of a spared direction ----------

  /** How often transfers on k were reported done. */
  function Completions(d: Device, k: Key): nat {
    Times(d.log, DoneEvent(k))
  }

  /** A step that spares k reports nothing for it and leaves its flag. */
  lemma SparingStepReportsNothing(d: Device, s: Step, app: App, k: Key)
    requires Enabled(d, s) && StepSpares(d, s, k)
    ensures Completions(Next(d, s, app), k) == Completions(d, k)
  {
    hide Call, ServeEndpoint, Times, CanReceive;
    match s
    case HostIn(n) =>
    case HostOut(n, data, isSetup) =>
    case DriverCall(c) =>
      CallLog(d, c);
      AddressEventsDoNotCount(d.log, Call(d, c).log, DoneEvent(k));
    case InterruptTurn(n) =>
      ServeEndpointOnce(d, n, app);
      UnservedNotDispatched(d, n, app, k.n);
  }

  /** Steps of a run that concern k: its own transactions and turns are allowed, driver calls on it are not. */
  ghost predicate CallsLeave(ss: seq<Step>, lay: Layout, k: Key) {
    forall s :: s in ss ==> LegalStep(lay, s) && (s.DriverCall? ==> !s.c.PmaConfigCall? && CallSpares(s.c, k))
  }

  // ---------- a direction with nothing under way ----------

  /** No callback makes a call on k, not even the one that reports a transfer on it done. */
  ghost predicate AppLeaves(app: App, k: Key) {
    forall d: Device :: CallsSpare(app(d), k)
  }

  /** With nothing under way on k and no call on it, every step spares k, reports nothing for it and
      leaves it with nothing under way. */
  lemma IdleStep(d: Device, s: Step, app: App, lay: Layout, k: Key)
    requires Configured(d, lay) && LegalApp(app, lay) && AppSpares(app, k) && k in lay && k.n != 0 && Apart(lay, k)
    requires Idle(d, k) && Enabled(d, s) && CallsLeave([s], lay, k)
    ensures StepSpares(d, s, k)
    ensures Configured(Next(d, s, app), lay) && Idle(Next(d, s, app), k)
    ensures Completions(Next(d, s, app), k) == Completions(d, k)
  {
    hide Configured, LegalApp, AppSpares, Completions, ViewOf, Next, LegalCall, CallSpares;
    assert s in [s];
    StepSpared(d, s, app, lay, k);
    SparingStepReportsNothing(d, s, app, k);
    IdleByView(d, Next(d, s, app), lay, k);
  }

  lemma IdleByView(d: Device, d': Device, lay: Layout, k: Key)
    requires Configured(d, lay) && Configured(d', lay) && k in lay && Idle(d, k)
    requires ViewOf(d', lay, k) == ViewOf(d, lay, k)
    ensures Idle(d', k)
  {}

  /** Nothing starts by itself: over runs of any length k stays without anything under way. */
  lemma {:induction false} IdleRun(d: Device, ss: seq<Step>, app: App, lay: Layout, k: Key)
    requires Configured(d, lay) && LegalApp(app, lay) && AppSpares(app, k) && k in lay && k.n != 0 && Apart(lay, k)
    requires Idle(d, k) && RunEnabled(d, ss, app) && CallsLeave(ss, lay, k)
    ensures Idle(Run(d, ss, app), k) && RunSpares(d, ss, app, k)
    ensures Completions(Run(d, ss, app), k) == Completions(d, k)
    decreases ss
  {
    hide Configured, LegalApp, AppSpares, Completions, Idle, Next, LegalStep, CallSpares, Enabled, StepSpares;
    if ss != [] {
      assert ss[0] in ss;
      IdleStep(d, ss[0], app, lay, k);
      IdleRun(Next(d, ss[0], app), ss[1..], app, lay, k);
    }
  }

  /** A callback that leaves k alone starts nothing on it. */
  lemma IdleCallback(d: Device, e: Event, app: App, lay: Layout, k: Key)
    requires Configured(d, lay) && LegalApp(app, lay) && AppLeaves(app, k) && k in lay && Apart(lay, k) && Idle(d, k)
    ensures Configured(Callback(d, e, app), lay) && Idle(Callback(d, e, app), k)
  {
    hide ViewOk, ViewOf, LegalCalls, CallsSpare, Configured, Idle;
    NoteSpared(d, e, lay, k);
    RunCallsKeep(Note(d, e), lay, app(Note(d, e)), k);
    IdleByView(d, Callback(d, e, app), lay, k);
  }

  // ---------- callbacks that start the next transfer ----------

  predicate StartsTransfer(c: ApiCall, k: Key) {
    if k.isIn then c.TransmitCall? && c.n == k.n else c.ReceiveCall? && c.n == k.n
  }

  /** At most one of the calls concerns k, and that one starts a transfer of a buffer within memory. */
  predicate AtMostOneTransfer(cs: seq<ApiCall>, k: Key, size: nat)
    decreases cs
  {
    cs == []
    || if CallSpares(cs[0], k) then AtMostOneTransfer(cs[1..], k, size)
       else StartsTransfer(cs[0], k) && cs[0].buf + cs[0].len < size && CallsSpare(cs[1..], k)
  }

  /** The callback that reports a transfer on k may start another one; nothing else concerns k. */
  ghost predicate AppChains(app: App, k: Key) {
    AppSpares(app, k) && forall d: Device :: AtMostOneTransfer(app(d), k, |d.ram|)
  }

  lemma CallsLeaveParts(ss: seq<Step>, lay: Layout, k: Key)
    requires ss != [] && CallsLeave(ss, lay, k)
    ensures CallsLeave([ss[0]], lay, k) && CallsLeave(ss[1..], lay, k)
  {
    assert ss[0] in ss;
    assert forall s :: s in ss[1..] ==> s in ss;
  }

  /** The run ends no later than the step that reports k done. */
  predicate StopsWhenDone(d: Device, ss: seq<Step>, app: App, k: Key)
    requires RunEnabled(d, ss, app)
    decreases ss
  {
    |ss| <= 1 || (Completions(Next(d, ss[0], app), k) == Completions(d, k) && StopsWhenDone(Next(d, ss[0], app), ss[1..], app, k))
  }

  /** The run sees one transfer on k: no callback starts another, or the run ends when the callback that
      reports it does. */
  ghost predicate OneTransfer(d: Device, ss: seq<Step>, app: App, k: Key)
    requires RunEnabled(d, ss, app)
  {
    AppSpares(app, k) && (AppLeaves(app, k) || StopsWhenDone(d, ss, app, k))
  }

  /** What that says about the first step and the rest of the run. */
  lemma OneTransferStep(d: Device, ss: seq<Step>, app: App, k: Key)
    requires ss != [] && RunEnabled(d, ss, app) && OneTransfer(d, ss, app, k)
    ensures AppSpares(app, k)
    ensures var d1 := Next(d, ss[0], app);
      if Completions(d1, k) == Completions(d, k) then OneTransfer(d1, ss[1..], app, k) else ss[1..] == [] || AppLeaves(app, k)
  {
    hide AppSpares, AppLeaves, Completions, Next, Enabled;
  }
}
