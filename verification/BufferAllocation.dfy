/** Where the shipped start-up code puts the packet buffers, and what follows for isolation. */
module BufferAllocation {
  import opened PacketMemory
  import opened PcdRegisters
  import opened Pcd
  import opened UsbTraffic
  import opened PmaLayout
  import opened BringUp

  const EP0_SIZE := 64
  const ECM_SIZE := 64

  const EP_TYPE_CTRL: byte := 0
  const EP_TYPE_BULK: byte := 2
  const EP_TYPE_INTR: byte := 3

  const EP0_OUT := Key(0, false)
  const EP0_IN := Key(0, true)
  const ECM_DATA_IN := Key(2, true)
  const ECM_DATA_OUT := Key(3, false)
  const ECM_NOTIFICATION_IN := Key(1, true)

  // ---------- allocation one after the other ----------

  /** Buffers of one size placed back to back, as the ECM class does it. */
  function BackToBack(ks: seq<Key>, size: nat, base: nat): Layout
    requires base + |ks| * size < 0x1_0000
    decreases ks
  {
    if ks == [] then map[]
    else
      assert base + size + |ks[1..]| * size == base + |ks| * size;
      BackToBack(ks[1..], size, base + size)[ks[0] := Region(base, size)]
  }

  predicate Distinct(ks: seq<Key>) {
    forall i, j :: 0 <= i < j < |ks| ==> ks[i] != ks[j]
  }

  /** The i-th buffer. */
  function Slot(base: nat, i: nat, size: nat): Region {
    Region((base + i * size) % 0x1_0000, size)
  }

  lemma {:induction false} BackToBackRegions(ks: seq<Key>, size: nat, base: nat)
    requires Distinct(ks) && base + |ks| * size < 0x1_0000
    ensures var lay := BackToBack(ks, size, base);
      && (forall k :: k in lay ==> k in ks)
      && forall i :: 0 <= i < |ks| ==> ks[i] in lay && lay[ks[i]] == Slot(base, i, size)
    decreases ks
  {
    if ks != [] {
      assert base + size + |ks[1..]| * size == base + |ks| * size;
      var rest := BackToBack(ks[1..], size, base + size);
      BackToBackRegions(ks[1..], size, base + size);
      forall i | 0 <= i < |ks|
        ensures ks[i] in BackToBack(ks, size, base) && BackToBack(ks, size, base)[ks[i]] == Slot(base, i, size)
      {
        if i > 0 {
          assert ks[i] == ks[1..][i - 1];
          assert rest[ks[i]] == Slot(base + size, i - 1, size);
          assert base + size + (i - 1) * size == base + i * size;
        }
      }
    }
  }

  /** Every direction has a buffer of its own. */
  predicate AllApart(lay: Layout) {
    ValidLayout(lay) && forall k :: k in lay ==> Apart(lay, k)
  }

  /** Back-to-back buffers of an even size behind the descriptor table isolate all their endpoints exactly
      when the last one still ends inside packet memory. */
  lemma BackToBackIsolates(ks: seq<Key>, size: nat, base: nat)
    requires Distinct(ks) && ks != [] && base + |ks| * size < 0x1_0000
    requires size % 2 == 0 && base % 2 == 0 && TABLE_SIZE <= base
    ensures AllApart(BackToBack(ks, size, base)) <==> base + |ks| * size <= PMA_SIZE
  {
    hide BackToBack, Slot, ValidRegion, Disjoint;
    var lay := BackToBack(ks, size, base);
    BackToBackRegions(ks, size, base);
    if base + |ks| * size <= PMA_SIZE {
      forall k | k in lay ensures ValidRegion(lay[k]) {
        var i :| 0 <= i < |ks| && ks[i] == k;
        SlotFits(i, |ks|, size, base);
      }
      forall k | k in lay ensures Apart(lay, k) {
        var i :| 0 <= i < |ks| && ks[i] == k;
        forall k' | k' in lay && k' != k ensures Disjoint(lay[k], lay[k']) {
          var j :| 0 <= j < |ks| && ks[j] == k';
          SlotsApart(i, j, |ks|, size, base);
        }
      }
    } else {
      LastSlot(|ks|, size, base);
      assert ks[|ks| - 1] in lay && !ValidRegion(lay[ks[|ks| - 1]]);
    }
  }

  lemma LastSlot(n: nat, size: nat, base: nat)
    requires n > 0 && base + n * size < 0x1_0000 && base + n * size > PMA_SIZE
    ensures !ValidRegion(Slot(base, n - 1, size))
  {
    assert (n - 1) * size + size == n * size;
  }

  lemma SlotFits(i: nat, n: nat, size: nat, base: nat)
    requires i < n && size % 2 == 0 && base % 2 == 0 && TABLE_SIZE <= base && base + n * size <= PMA_SIZE
    ensures ValidRegion(Slot(base, i, size))
  {
    EvenSteps(i, n, size, base);
  }

  lemma SlotsApart(i: nat, j: nat, n: nat, size: nat, base: nat)
    requires i != j && i < n && j < n && size % 2 == 0 && base % 2 == 0 && base + n * size <= PMA_SIZE
    ensures Disjoint(Slot(base, i, size), Slot(base, j, size))
  {
    hide Slot;
    if i < j {
      SlotsInOrder(i, j, n, size, base);
    } else {
      SlotsInOrder(j, i, n, size, base);
    }
  }

  lemma SlotsInOrder(i: nat, j: nat, n: nat, size: nat, base: nat)
    requires i < j < n && size % 2 == 0 && base % 2 == 0 && base + n * size <= PMA_SIZE
    ensures Slot(base, i, size).start + Slot(base, i, size).size <= Slot(base, j, size).start
  {
    LaterMultiple(i, j, size);
    LaterMultiple(j, n, size);
    var a, b, c := i * size, j * size, n * size;
    assert a + size <= b && b + size <= c;
  }

  lemma EvenSteps(i: nat, j: nat, size: nat, base: nat)
    requires i < j && size % 2 == 0 && base % 2 == 0
    ensures base + i * size + size <= base + j * size && (base + i * size) % 2 == 0
  {
    EvenMultiple(i, size);
    LaterMultiple(i, j, size);
  }

  lemma {:induction false} EvenMultiple(i: nat, size: nat)
    requires size % 2 == 0
    ensures i * size % 2 == 0
  {
    if i > 0 {
      EvenMultiple(i - 1, size);
      assert i * size == (i - 1) * size + size;
    }
  }

  lemma {:induction false} LaterMultiple(i: nat, j: nat, size: nat)
    requires i < j
    ensures i * size + size <= j * size
  {
    assert j * size == (j - 1) * size + size;
    if i < j - 1 { LaterMultiple(i, j - 1, size); }
  }

  // ---------- the shipped start-up code ----------

  /** The start-up code assigns plus the size where it means to add it, so what it computed before is
      lost and both directions of endpoint 0 are given the same address. */
  function ShippedEp0Address(before: nat): nat {
    EP0_SIZE
  }

  /** The calls of the start-up code; `start` is the first byte behind the descriptor table. */
  function ShippedCalls(start: nat): seq<ApiCall> {
    var a := ShippedEp0Address(start);
    var b := ShippedEp0Address(a);
    [PmaConfigCall(0, false, true, a), PmaConfigCall(0, true, true, b),
     PmaConfigCall(2, true, true, b), PmaConfigCall(3, false, true, b + ECM_SIZE),
     PmaConfigCall(1, true, true, b + 2 * ECM_SIZE)]
  }

  function ShippedLayout(): Layout {
    map[EP0_OUT := Region(64, EP0_SIZE), EP0_IN := Region(64, EP0_SIZE),
        ECM_DATA_IN := Region(64, ECM_SIZE), ECM_DATA_OUT := Region(128, ECM_SIZE),
        ECM_NOTIFICATION_IN := Region(192, ECM_SIZE)]
  }

  /** After the shipped calls every structure holds the address the layout says. */
  lemma ShippedAddresses(d: Device, start: nat)
    ensures var d' := RunCalls(d, ShippedCalls(start));
      forall k :: k in ShippedLayout() ==>
        GetEp(d', k.n, k.isIn).pmaAddress == ShippedLayout()[k].start && !GetEp(d', k.n, k.isIn).doubleBuffer
  {
    hide Call;
    var cs := ShippedCalls(start);
    RunFive(d, cs);
    var d1 := Call(d, cs[0]);
    ConfigPlaces(d, cs[0]);
    var d2 := Call(d1, cs[1]);
    ConfigPlaces(d1, cs[1]);
    var d3 := Call(d2, cs[2]);
    ConfigPlaces(d2, cs[2]);
    var d4 := Call(d3, cs[3]);
    ConfigPlaces(d3, cs[3]);
    ConfigPlaces(d4, cs[4]);
  }

  lemma RunFive(d: Device, cs: seq<ApiCall>)
    requires |cs| == 5
    ensures RunCalls(d, cs) == Call(Call(Call(Call(Call(d, cs[0]), cs[1]), cs[2]), cs[3]), cs[4])
  {
    RunPair(d, cs);
    var d2 := Call(Call(d, cs[0]), cs[1]);
    RunPair(d2, cs[2..]);
    assert cs[2..][2..] == [cs[4]];
    RunLast(Call(Call(d2, cs[2]), cs[3]), cs[4]);
  }

  lemma RunPair(d: Device, cs: seq<ApiCall>)
    requires |cs| >= 2
    ensures RunCalls(d, cs) == RunCalls(Call(Call(d, cs[0]), cs[1]), cs[2..])
  {
    hide Call;
    assert RunCalls(d, cs) == RunCalls(Call(d, cs[0]), cs[1..]);
    assert cs[1..][1..] == cs[2..];
  }

  lemma RunLast(d: Device, c: ApiCall)
    ensures RunCalls(d, [c]) == Call(d, c)
  {
    hide Call;
    assert [c][1..] == [];
  }

  lemma ConfigPlaces(d: Device, c: ApiCall)
    requires c.PmaConfigCall? && c.single && c.pmaAddress < 0x1_0000
    ensures var ep := GetEp(Call(d, c), c.n, c.isIn); ep.pmaAddress == c.pmaAddress && !ep.doubleBuffer
    ensures forall k :: k != Key(c.n, c.isIn) ==> GetEp(Call(d, c), k.n, k.isIn) == GetEp(d, k.n, k.isIn)
  {
  }

  /** The shipped layout isolates the network data coming in and the notifications, and nothing else:
      both directions of endpoint 0 and the network data going out share one buffer. */
  lemma ShippedLayoutOverlaps(k: Key)
    requires k in ShippedLayout()
    ensures ValidLayout(ShippedLayout())
    ensures Apart(ShippedLayout(), k) <==> k == ECM_DATA_OUT || k == ECM_NOTIFICATION_IN
  {
    var lay := ShippedLayout();
    if k != ECM_DATA_OUT && k != ECM_NOTIFICATION_IN {
      var other := if k == EP0_IN then EP0_OUT else EP0_IN;
      assert other in lay && other != k && !Disjoint(lay[k], lay[other]);
    }
  }

  /** What start-up and the class bring up, packet sizes and types included. */
  function ShippedSetups(): seq<Setup> {
    [Setup(EP0_OUT, Region(64, EP0_SIZE), EP0_SIZE, EP_TYPE_CTRL),
     Setup(EP0_IN, Region(64, EP0_SIZE), EP0_SIZE, EP_TYPE_CTRL),
     Setup(ECM_DATA_IN, Region(64, ECM_SIZE), ECM_SIZE, EP_TYPE_BULK),
     Setup(ECM_DATA_OUT, Region(128, ECM_SIZE), ECM_SIZE, EP_TYPE_BULK),
     Setup(ECM_NOTIFICATION_IN, Region(192, ECM_SIZE), ECM_SIZE, EP_TYPE_INTR)]
  }

  lemma ShippedSetupsGiveLayout()
    ensures LayoutOf(map[], ShippedSetups()) == ShippedLayout()
  {
    var ss := ShippedSetups();
    var l1: Layout := map[][ss[0].k := ss[0].r];
    var l2, l3 := l1[ss[1].k := ss[1].r], l1[ss[1].k := ss[1].r][ss[2].k := ss[2].r];
    assert LayoutOf(map[], ss) == LayoutOf(l1, ss[1..]);
    assert LayoutOf(l1, ss[1..]) == LayoutOf(l2, ss[1..][1..]);
    assert ss[1..][1..] == ss[2..] && ss[2..][1..] == ss[3..] && ss[3..][1..] == ss[4..] && ss[4..][1..] == [];
    assert LayoutOf(l2, ss[2..]) == LayoutOf(l3, ss[3..]);
  }

  /** The device after the shipped start-up: all buffers are assigned first, and the endpoints opened later. */
  function Shipped(d: Device, start: nat): Device {
    RunCalls(RunCalls(d, ShippedCalls(start)), OpenCalls(ShippedSetups()))
  }

  lemma ShippedBringsUp(d: Device, start: nat)
    ensures Shipped(d, start) == BringUpAll(d, ShippedSetups())
  {
    hide RunCalls, BringUpAll, DistinctKeys;
    ShippedSetupsFit();
    ConfigureThenOpen(d, map[], ShippedSetups());
    var ss := ShippedSetups();
    assert ss[1..][1..] == ss[2..] && ss[2..][1..] == ss[3..] && ss[3..][1..] == ss[4..] && ss[4..][1..] == [];
    assert ConfigCalls(ss[3..]) == [ShippedCalls(start)[3], ShippedCalls(start)[4]];
    assert ConfigCalls(ss[1..]) == [ShippedCalls(start)[1], ShippedCalls(start)[2]] + ConfigCalls(ss[3..]);
    assert ConfigCalls(ss) == ShippedCalls(start);
  }

  /** The shipped configuration, overlaps and all, still keeps the data OUT endpoint and the notification
      endpoint apart: after start-up, whatever runs on the other endpoints, their buffers, descriptors,
      structures and register fields stay as they were while nothing concerns them. */
  lemma ShippedIsolation(d: Device, start: nat, ss: seq<Step>, app: App, k: Key)
    requires Untouched(d) && AllCountsFit(d, ShippedSetups())
    requires k in {ECM_DATA_OUT, ECM_NOTIFICATION_IN} && LegalApp(app, ShippedLayout()) && AppSpares(app, k)
    requires var d0 := Shipped(d, start);
      RunEnabled(d0, ss, app) && (forall s :: s in ss ==> LegalStep(ShippedLayout(), s)) && RunSpares(d0, ss, app, k)
    ensures var d0 := Shipped(d, start);
      && Configured(d0, ShippedLayout()) && Configured(Run(d0, ss, app), ShippedLayout())
      && ViewOf(Run(d0, ss, app), ShippedLayout(), k) == ViewOf(d0, ShippedLayout(), k)
  {
    hide Untouched, AllCountsFit, LegalApp, AppSpares, BringUpAll, RunEnabled, LegalStep, RunSpares, Configured, Run, ViewOf,
      Apart, Shipped;
    ShippedLayoutOverlaps(k);
    ShippedSetupsGiveLayout();
    ShippedSetupsFit();
    ShippedBringsUp(d, start);
    StartUpConfigures(d, ShippedSetups());
    Isolation(Shipped(d, start), ss, app, ShippedLayout(), k);
  }

  lemma ShippedSetupsFit()
    ensures DistinctKeys(map[], ShippedSetups()) && Fits(ShippedSetups())
  {
    hide SizeFits;
    forall r: Region, isIn | r.size == 64 ensures SizeFits(r, isIn, 64) { SixtyFourFits(r, isIn); }
  }

  lemma SixtyFourFits(r: Region, isIn: bool)
    requires r.size == 64
    ensures SizeFits(r, isIn, 64)
  {}

  /** What the overlap costs: while an answer on endpoint 0 waits to be fetched, queueing a network
      packet at least as long replaces every byte of it, so the host gets the packet's bytes instead. */
  lemma NetworkDataReplacesAnswer(d: Device, buf: nat, len: nat)
    requires |d.pma| == PMA_SIZE && !d.inEp[2].doubleBuffer && d.inEp[2].maxPacket == ECM_SIZE
    requires d.inEp[2].pmaAddress == ShippedLayout()[ECM_DATA_IN].start
    requires GetHalf(d.pma, TxAddressAt(0)) == ShippedLayout()[EP0_IN].start
    requires TxCount(d, 0) <= Chunk(len, ECM_SIZE) && buf + len < |d.ram|
    ensures PacketToSend(Transmit(d, 2, buf, len), 0) == d.ram[buf..buf + TxCount(d, 0)]
  {
    hide GetHalf, PutHalf, CopyHalves;
    var w := Chunk(len, ECM_SIZE);
    var c := TxCount(d, 0);
    var pma1 := CopyHalves(d.pma, 64, d.ram, buf, HalfCount(w));
    var d' := Transmit(d, 2, buf, len);
    assert d'.pma == PutHalf(pma1, TxCountAt(2), w);
    CopyHalvesOutside(d.pma, 64, d.ram, buf, HalfCount(w), TxAddressAt(0), TxAddressAt(0) + 4);
    CopyHalvesIsSplice(d.pma, 64, d.ram, buf, HalfCount(w));
    SameHalf(d.pma, pma1, TxAddressAt(0), 0);
    SameHalf(d.pma, pma1, TxAddressAt(0), 2);
    GetPutHalf(pma1, TxCountAt(2), w, TxAddressAt(0));
    GetPutHalf(pma1, TxCountAt(2), w, TxCountAt(0));
    PutHalfOutside(pma1, TxCountAt(2), w, 64, 64 + c);
    var h := 2 * HalfCount(w);
    assert pma1[64..64 + h] == d.ram[buf..buf + h];
    SlicePrefix(pma1, 64, h, c);
    SlicePrefix(d.ram, buf, h, c);
  }

  lemma SameHalf(a: seq<byte>, b: seq<byte>, at: nat, off: nat)
    requires |a| == |b| && at + 4 <= |a| && off <= 2 && a[at..at + 4] == b[at..at + 4]
    ensures GetHalf(a, at + off) == GetHalf(b, at + off)
  {
    assert a[at + off] == a[at..at + 4][off] && b[at + off] == b[at..at + 4][off];
    assert a[at + off + 1] == a[at..at + 4][off + 1] && b[at + off + 1] == b[at..at + 4][off + 1];
  }
}
