/** Start-up: assigning buffers and opening endpoints establishes the configuration that isolation and the
    stream theorems start from. */
module BringUp {
  import opened EndpointRegister
  import opened PacketMemory
  import opened PcdRegisters
  import opened Pcd
  import opened UsbTraffic
  import opened PmaLayout

  /** One direction to be brought up: its buffer, packet size and type. */
  datatype Setup = Setup(k: Key, r: Region, mps: half, t: byte)

  /** PMAConfig, then EP_Open. */
  function BringUpOne(d: Device, s: Setup): Device {
    Open(PmaConfig(d, s.k.n, s.k.isIn, true, s.r.start), s.k.n, s.k.isIn, s.mps, s.t)
  }

  function BringUpAll(d: Device, ss: seq<Setup>): Device
    decreases ss
  {
    if ss == [] then d else BringUpAll(BringUpOne(d, ss[0]), ss[1..])
  }

  function LayoutOf(lay: Layout, ss: seq<Setup>): Layout
    decreases ss
  {
    if ss == [] then lay else LayoutOf(lay[ss[0].k := ss[0].r], ss[1..])
  }

  /** The transmit count that packet memory happens to hold for the direction, which opening does not
      write, is not more than its buffer holds. */
  predicate CountFits(d: Device, s: Setup) {
    s.k.isIn ==> Even(TxCount(d, s.k.n)) <= s.r.size
  }

  predicate SameTxCounts(d: Device, d': Device) {
    forall n: EpNum :: TxCount(d', n) == TxCount(d, n)
  }

  /** The structure and registers of the direction brought up. */
  lemma BroughtUp(d: Device, s: Setup)
    ensures var d' := BringUpOne(d, s);
      var ep := GetEp(d, s.k.n, s.k.isIn).(doubleBuffer := false, pmaAddress := s.r.start, maxPacket := s.mps, epType := s.t);
      && (if s.k.isIn then d'.inEp == d.inEp[s.k.n := ep] && d'.outEp == d.outEp
          else d'.outEp == d.outEp[s.k.n := ep] && d'.inEp == d.inEp)
      && d'.reg == d.reg[s.k.n := OpenUpdate(s.k.n, s.k.isIn, s.t, d.reg[s.k.n], false)]
      && d'.pma == if s.k.isIn then PutHalf(d.pma, TxAddressAt(s.k.n), s.r.start / 2 * 2)
           else PutHalf(PutHalf(d.pma, RxAddressAt(s.k.n), s.r.start / 2 * 2), RxCountAt(s.k.n), EncodeRx(s.mps))
  {
    hide PutHalf, EncodeRx, OpenUpdate;
    var d1, d' := PmaConfig(d, s.k.n, s.k.isIn, true, s.r.start), BringUpOne(d, s);
    if s.k.isIn {
      UpdateTwice(d.inEp, s.k.n, d1.inEp[s.k.n], d'.inEp[s.k.n]);
    } else {
      UpdateTwice(d.outEp, s.k.n, d1.outEp[s.k.n], d'.outEp[s.k.n]);
    }
  }

  lemma UpdateTwice(s: seq<Ep>, i: nat, a: Ep, b: Ep)
    requires i < |s|
    ensures s[i := a][i := b] == s[i := b]
  {}

  /** Bringing up one more direction adds it to the configuration and disturbs none of the others whose
      buffer is its own. */
  lemma OneMoreDirection(d: Device, lay: Layout, s: Setup)
    requires Configured(d, lay) && s.k !in lay && CountFits(d, s)
    requires ValidLayout(lay[s.k := s.r]) && SizeFits(s.r, s.k.isIn, s.mps)
    ensures Configured(BringUpOne(d, s), lay[s.k := s.r])
    ensures forall k :: k in lay && Apart(lay[s.k := s.r], k) ==>
      ViewOf(BringUpOne(d, s), lay[s.k := s.r], k) == ViewOf(d, lay, k)
  {
    hide ViewOk, ViewOf, ActedOn, BringUpOne, SizeFits, CountFits;
    var d', lay' := BringUpOne(d, s), lay[s.k := s.r];
    BroughtUpActs(d, lay', s);
    forall k | k in lay
      ensures ViewOk(ViewOf(d', lay', k), lay'[k], k.isIn)
      ensures Apart(lay', k) ==> ViewOf(d', lay', k) == ViewOf(d, lay, k)
    {
      SameRegionView(d, lay, lay', k);
      ActedOnKeepsOk(d, d', lay', s.k, k);
      if Apart(lay', k) { ActedOnKeepsView(d, d', lay', s.k, k); }
    }
    forall k: Key | k !in lay' ensures Idle(d', k) {
      assert Idle(d, k);
      ActedOnKeepsIdle(d, d', lay', s.k, k);
    }
  }

  lemma SameRegionView(d: Device, lay: Layout, lay': Layout, k: Key)
    requires PmaSized(d) && k in lay && k in lay' && lay[k] == lay'[k] && ValidRegion(lay[k])
    ensures ViewOf(d, lay', k) == ViewOf(d, lay, k)
  {}

  lemma ActedOnKeepsIdle(d: Device, d': Device, lay: Layout, a: Key, k: Key)
    requires a in lay && ActedOn(d, d', lay, a) && k != a && Idle(d, k)
    ensures Idle(d', k)
  {
    hide ChangedOnly;
    assert k.isIn ==> Key(k.n, true) == k;
    assert !k.isIn ==> Key(k.n, false) == k;
  }

  lemma BroughtUpActs(d: Device, lay: Layout, s: Setup)
    requires ValidLayout(lay) && PmaSized(d) && s.k in lay && lay[s.k] == s.r && SizeFits(s.r, s.k.isIn, s.mps)
    requires CountFits(d, s)
    ensures var d' := BringUpOne(d, s);
      ActedOn(d, d', lay, s.k) && PmaSized(d') && ViewOk(ViewOf(d', lay, s.k), s.r, s.k.isIn)
  {
    hide GetHalf, PutHalf, EncodeRx, Capacity, ChangedOnly, ActedOn, BringUpOne;
    var k, d' := s.k, BringUpOne(d, s);
    var ep, e := GetEp(d', k.n, k.isIn), d'.reg[k.n];
    BroughtUp(d, s);
    OpenKeepsOtherHalf(OpenCall(k.n, k.isIn, s.mps, s.t), d.reg[k.n]);
    assert s.r.start / 2 * 2 == s.r.start by { assert ValidRegion(lay[k]); }
    DescriptorMemory(d.pma, lay, k, s.r.start, EncodeRx(s.mps));
    ActedOnByParts(d, d', lay, k, ep, e);
    CountsStay(d, s);
    if k.isIn {
      assert TxCount(d', k.n) == CountField(ViewOf(d', lay, k).count);
    }
  }

  lemma CountsStay(d: Device, s: Setup)
    ensures SameTxCounts(d, BringUpOne(d, s)) && (PmaSized(d) ==> PmaSized(BringUpOne(d, s)))
  {
    hide GetHalf, PutHalf, EncodeRx, BringUpOne;
    BroughtUp(d, s);
    var d' := BringUpOne(d, s);
    var a := s.r.start / 2 * 2;
    GetPutHalf(d.pma, TxAddressAt(s.k.n), a, 0);
    GetPutHalf(PutHalf(d.pma, RxAddressAt(s.k.n), a), RxCountAt(s.k.n), EncodeRx(s.mps), 0);
    GetPutHalf(d.pma, RxAddressAt(s.k.n), a, 0);
    forall n: EpNum ensures TxCount(d', n) == TxCount(d, n) {
      if s.k.isIn {
        GetPutHalf(d.pma, TxAddressAt(s.k.n), a, TxCountAt(n));
      } else {
        GetPutHalf(d.pma, RxAddressAt(s.k.n), a, TxCountAt(n));
        GetPutHalf(PutHalf(d.pma, RxAddressAt(s.k.n), a), RxCountAt(s.k.n), EncodeRx(s.mps), TxCountAt(n));
      }
    }
  }

  lemma {:induction false} AllCountsStay(d: Device, ss: seq<Setup>)
    ensures SameTxCounts(d, BringUpAll(d, ss))
    decreases ss
  {
    hide BringUpOne, TxCount;
    if ss != [] {
      CountsStay(d, ss[0]);
      AllCountsStay(BringUpOne(d, ss[0]), ss[1..]);
    }
  }

  /** A device after reset: idle in every direction.  Packet memory is not cleared by a reset. */
  predicate Untouched(d: Device) {
    PmaSized(d) && forall n: EpNum :: d.reg[n] == RESET_RECORD
  }

  predicate AllCountsFit(d: Device, ss: seq<Setup>) {
    forall s :: s in ss ==> CountFits(d, s)
  }

  predicate Fits(ss: seq<Setup>) {
    forall s :: s in ss ==> SizeFits(s.r, s.k.isIn, s.mps)
  }

  predicate DistinctKeys(lay: Layout, ss: seq<Setup>) {
    (forall s :: s in ss ==> s.k !in lay) && forall i, j :: 0 <= i < j < |ss| ==> ss[i].k != ss[j].k
  }

  lemma {:induction false} LayoutGrows(lay: Layout, ss: seq<Setup>)
    requires DistinctKeys(lay, ss)
    ensures forall k :: k in lay ==> k in LayoutOf(lay, ss) && LayoutOf(lay, ss)[k] == lay[k]
    decreases ss
  {
    if ss != [] {
      RestDistinct(lay, ss);
      LayoutGrows(lay[ss[0].k := ss[0].r], ss[1..]);
    }
  }

  lemma RestDistinct(lay: Layout, ss: seq<Setup>)
    requires ss != [] && DistinctKeys(lay, ss)
    ensures ss[0].k !in lay && DistinctKeys(lay[ss[0].k := ss[0].r], ss[1..])
  {
    assert ss[0] in ss;
    forall s | s in ss[1..] ensures s.k !in lay[ss[0].k := ss[0].r] {
      var i :| 0 <= i < |ss[1..]| && ss[1..][i] == s;
      assert ss[i + 1] == s && s in ss;
    }
  }

  lemma SubLayoutValid(lay: Layout, all: Layout)
    requires ValidLayout(all) && forall k :: k in lay ==> k in all && all[k] == lay[k]
    ensures ValidLayout(lay)
  {}

  lemma {:induction false} AllDirections(d: Device, lay: Layout, ss: seq<Setup>)
    requires Configured(d, lay) && AllCountsFit(d, ss)
    requires DistinctKeys(lay, ss) && ValidLayout(LayoutOf(lay, ss)) && Fits(ss)
    ensures Configured(BringUpAll(d, ss), LayoutOf(lay, ss))
    decreases ss
  {
    hide Configured, BringUpOne, CountFits, DistinctKeys, ValidLayout, SizeFits, ViewOf;
    if ss != [] {
      var s := ss[0];
      assert s in ss;
      RestDistinct(lay, ss);
      var lay1 := lay[s.k := s.r];
      LayoutGrows(lay1, ss[1..]);
      SubLayoutValid(lay1, LayoutOf(lay, ss));
      OneMoreDirection(d, lay, s);
      CountsStay(d, s);
      StillFit(d, BringUpOne(d, s), ss[1..]);
      AllDirections(BringUpOne(d, s), lay1, ss[1..]);
    }
  }

  lemma StillFit(d: Device, d': Device, ss: seq<Setup>)
    requires SameTxCounts(d, d') && AllCountsFit(d, ss)
    ensures AllCountsFit(d', ss)
  {
    hide TxCount;
    forall s | s in ss ensures CountFits(d', s) { assert CountFits(d, s); }
  }

  lemma {:induction false} LayoutHolds(lay: Layout, ss: seq<Setup>, s: Setup)
    requires DistinctKeys(lay, ss) && s in ss
    ensures s.k in LayoutOf(lay, ss) && LayoutOf(lay, ss)[s.k] == s.r
    decreases ss
  {
    RestDistinct(lay, ss);
    var lay1 := lay[ss[0].k := ss[0].r];
    if s == ss[0] {
      LayoutGrows(lay1, ss[1..]);
    } else {
      LayoutHolds(lay1, ss[1..], s);
    }
  }

  /** From a device after reset, bringing up any directions whose buffers lie behind the descriptor table,
      inside packet memory, and hold their packet size establishes the configuration if and only if the
      transmit counts left in packet memory fit the buffers they are given. */
  lemma StartUpConfigures(d: Device, ss: seq<Setup>)
    requires Untouched(d) && DistinctKeys(map[], ss) && ValidLayout(LayoutOf(map[], ss)) && Fits(ss)
    ensures Configured(BringUpAll(d, ss), LayoutOf(map[], ss)) <==> AllCountsFit(d, ss)
  {
    hide BringUpAll, LayoutOf, DistinctKeys, Fits, ValidLayout, CountFits;
    if AllCountsFit(d, ss) {
      assert Configured(d, map[]) by { NothingConfigured(d); }
      AllDirections(d, map[], ss);
    }
    if Configured(BringUpAll(d, ss), LayoutOf(map[], ss)) {
      AllCountsStay(d, ss);
      forall s | s in ss ensures CountFits(d, s) {
        LayoutHolds(map[], ss, s);
        ConfiguredCountFits(BringUpAll(d, ss), LayoutOf(map[], ss), s);
        SameCountFits(d, BringUpAll(d, ss), s);
      }
    }
  }

  lemma ConfiguredCountFits(d: Device, lay: Layout, s: Setup)
    requires Configured(d, lay) && s.k in lay && lay[s.k] == s.r
    ensures CountFits(d, s)
  {
    hide GetHalf;
    ConfiguredKey(d, lay, s.k);
  }

  lemma SameCountFits(d: Device, d': Device, s: Setup)
    requires SameTxCounts(d, d') && CountFits(d', s)
    ensures CountFits(d, s)
  {
    hide TxCount;
  }

  // ---------- all buffers first, then all endpoints ----------

  function ConfigCalls(ss: seq<Setup>): seq<ApiCall>
    decreases ss
  {
    if ss == [] then []
    else [PmaConfigCall(ss[0].k.n, ss[0].k.isIn, true, ss[0].r.start)] + ConfigCalls(ss[1..])
  }

  function OpenCalls(ss: seq<Setup>): seq<ApiCall>
    decreases ss
  {
    if ss == [] then [] else [OpenCall(ss[0].k.n, ss[0].k.isIn, ss[0].mps, ss[0].t)] + OpenCalls(ss[1..])
  }

  lemma RunFirst(d: Device, c: ApiCall, cs: seq<ApiCall>)
    ensures RunCalls(d, [c] + cs) == RunCalls(Call(d, c), cs)
  {
    hide Call;
    assert ([c] + cs)[1..] == cs;
  }

  /** Opening one direction and assigning a buffer to another can change places. */
  lemma OpenPastConfig(d: Device, s: Setup, k: Key, a: half)
    requires s.k != k
    ensures PmaConfig(Open(d, s.k.n, s.k.isIn, s.mps, s.t), k.n, k.isIn, true, a)
         == Open(PmaConfig(d, k.n, k.isIn, true, a), s.k.n, s.k.isIn, s.mps, s.t)
  {
    hide PutHalf, EncodeRx, OpenUpdate;
    if s.k.isIn == k.isIn {
      var e := GetEp(PmaConfig(d, k.n, k.isIn, true, a), k.n, k.isIn);
      var f := GetEp(d, s.k.n, s.k.isIn).(maxPacket := s.mps, epType := s.t);
      UpdatesCommute(if k.isIn then d.inEp else d.outEp, k.n, e, s.k.n, f);
    }
  }

  lemma UpdatesCommute(s: seq<Ep>, i: nat, a: Ep, j: nat, b: Ep)
    requires i < |s| && j < |s| && i != j
    ensures s[i := a][j := b] == s[j := b][i := a]
  {}

  lemma {:induction false} OpenPastConfigs(d: Device, s: Setup, ss: seq<Setup>)
    requires forall x :: x in ss ==> x.k != s.k
    ensures Open(RunCalls(d, ConfigCalls(ss)), s.k.n, s.k.isIn, s.mps, s.t)
         == RunCalls(Open(d, s.k.n, s.k.isIn, s.mps, s.t), ConfigCalls(ss))
    decreases ss
  {
    hide Open, PmaConfig, RunCalls;
    if ss == [] {
      RunNone(d);
      RunNone(Open(d, s.k.n, s.k.isIn, s.mps, s.t));
    } else {
      var x := ss[0];
      assert x in ss;
      var c := PmaConfigCall(x.k.n, x.k.isIn, true, x.r.start);
      RunFirst(d, c, ConfigCalls(ss[1..]));
      RunFirst(Open(d, s.k.n, s.k.isIn, s.mps, s.t), c, ConfigCalls(ss[1..]));
      OpenPastConfig(d, s, x.k, x.r.start);
      OpenPastConfigs(PmaConfig(d, x.k.n, x.k.isIn, true, x.r.start), s, ss[1..]);
    }
  }

  lemma RunNone(d: Device)
    ensures RunCalls(d, []) == d
  {}

  /** Assigning all buffers first and opening all endpoints later, as the shipped code does, brings the
      directions up as doing so one direction after the other does. */
  lemma {:induction false} ConfigureThenOpen(d: Device, lay: Layout, ss: seq<Setup>)
    requires DistinctKeys(lay, ss)
    ensures RunCalls(RunCalls(d, ConfigCalls(ss)), OpenCalls(ss)) == BringUpAll(d, ss)
    decreases ss
  {
    hide Open, PmaConfig, RunCalls;
    if ss == [] {
      RunNone(d);
    } else {
      var s := ss[0];
      RestDistinct(lay, ss);
      RunFirst(d, PmaConfigCall(s.k.n, s.k.isIn, true, s.r.start), ConfigCalls(ss[1..]));
      var d1 := PmaConfig(d, s.k.n, s.k.isIn, true, s.r.start);
      RunFirst(RunCalls(d1, ConfigCalls(ss[1..])), OpenCall(s.k.n, s.k.isIn, s.mps, s.t), OpenCalls(ss[1..]));
      OpenPastConfigs(d1, s, ss[1..]);
      ConfigureThenOpen(BringUpOne(d, s), lay[s.k := s.r], ss[1..]);
    }
  }

  lemma NothingConfigured(d: Device)
    requires Untouched(d)
    ensures Configured(d, map[])
  {}

  /** The structure of an endpoint says whether its direction is stalled, and a stall changes nothing else
      outside the register. */
  lemma StallIsNoted(d: Device, n: EpNum, isIn: bool)
    ensures OnlyStallNoted(d, SetStall(d, n, isIn), n, isIn, true) && OnlyStallNoted(d, ClrStall(d, n, isIn), n, isIn, false)
  {
    hide SetStallUpdate, ClrStallUpdate;
  }

  predicate OnlyStallNoted(d: Device, d': Device, n: EpNum, isIn: bool, stalled: bool) {
    && d'.pma == d.pma && d'.ram == d.ram && d'.log == d.log
    && (forall m: EpNum :: m != n ==> d'.reg[m] == d.reg[m])
    && d'.inEp == (if isIn then d.inEp[n := d.inEp[n].(isStall := stalled)] else d.inEp)
    && d'.outEp == (if isIn then d.outEp else d.outEp[n := d.outEp[n].(isStall := stalled)])
  }

  /** Clearing a stall, which a host may ask for without one, makes an IN endpoint send what lies in its
      buffer, at the count that was there: the last packet once more, or after opening, which does not write
      the count, whatever packet memory held. */
  lemma ClearedStallSends(d: Device, n: EpNum, mps: half, t: byte)
    ensures CanSend(ClrStall(d, n, true), n) && PacketToSend(ClrStall(d, n, true), n) == PacketToSend(d, n)
    ensures !d.inEp[n].doubleBuffer ==> TxCount(Open(d, n, true, mps, t), n) == TxCount(d, n)
  {
    hide GetHalf, PutHalf, OpenUpdate;
    GetPutHalf(d.pma, TxAddressAt(n), d.inEp[n].pmaAddress / 2 * 2, TxCountAt(n));
  }
}
