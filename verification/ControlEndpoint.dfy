/** What the service of endpoint 0 moves: from a transaction on the bus to the state in which the
    application's callback runs, and to the end of the turn. */
module ControlEndpoint {
  import opened EndpointRegister
  import opened EndpointRaces
  import opened PacketMemory
  import opened Pcd
  import opened PcdInterrupt
  import opened UsbTraffic
  import opened PmaLayout

  const CONTROL_IN := Key(0, true)
  const CONTROL_OUT := Key(0, false)

  /** The data stand at b; of the rest of memory at most the byte that completes the last halfword changed. */
  predicate PutAt(ram: seq<byte>, ram': seq<byte>, b: nat, data: seq<byte>)
    requires b + Even(|data|) <= |ram|
  {
    && |ram'| == |ram| && ram'[b..b + |data|] == data
    && ram'[..b] == ram[..b] && ram'[b + Even(|data|)..] == ram[b + Even(|data|)..]
  }

  lemma CopyPutsAt(pma: seq<byte>, start: nat, ram: seq<byte>, b: nat, data: seq<byte>)
    requires start + Even(|data|) <= |pma| && b + Even(|data|) <= |ram| && |data| < 0x400
    requires pma[start..start + |data|] == data
    ensures PutAt(ram, CopyHalves(ram, b, pma, start, HalfCount(|data|)), b, data)
  {
    hide CopyHalves;
    assert 2 * HalfCount(|data|) == Even(|data|);
    SpliceFacts(ram, b, pma, start, HalfCount(|data|), |data|);
  }

  lemma CapacityEven(reg: half)
    ensures Capacity(reg) % 2 == 0
  {}

  /** A packet for endpoint 0 as it stands in packet memory. */
  lemma PacketStands(d: Device, lay: Layout, data: seq<byte>, isSetup: bool)
    requires Configured(d, lay) && CONTROL_OUT in lay && CanReceive(d, 0, data, isSetup)
    ensures var d', start := Received(d, 0, data, isSetup), d.outEp[0].pmaAddress;
      && start + Even(|data|) <= |d'.pma| == |d.pma| && d'.pma[start..start + |data|] == data && RxCount(d', 0) == |data|
      && !d.outEp[0].doubleBuffer && d'.outEp == d.outEp && d'.inEp == d.inEp && d'.ram == d.ram && d'.log == d.log
      && d'.setupBuf == d.setupBuf && d'.reg[0] == Hw(d.reg[0], RxDone(isSetup))
  {
    hide GetHalf, PutHalf, PutBytes, Capacity, EncodeRx, WithCount, ChangedOnly, Configured;
    ConfiguredKey(d, lay, CONTROL_OUT);
    var v := ViewOf(d, lay, CONTROL_OUT);
    CapacityEven(v.count);
    ReceivedMemory(d.pma, lay, CONTROL_OUT, data);
    CountKeepsBlocks(v.count, |data|);
  }

  /** When the application is told of a SETUP, its packet is in the setup buffer: those bytes, that many,
      and nothing else of user memory but a completing byte has changed, then or by the end of the turn. */
  lemma SetupReachesBuffer(d: Device, lay: Layout, data: seq<byte>, app: App) returns (at: Device)
    requires Configured(d, lay) && CONTROL_OUT in lay && CanReceive(d, 0, data, true)
    requires d.setupBuf + Even(|data|) <= |d.ram|
    ensures var d' := ServeEndpoint(Received(d, 0, data, true), 0, app);
      d' == Callback(at, SetupStage, app) && d'.ram == at.ram
    ensures PutAt(d.ram, at.ram, d.setupBuf, data) && at.setupBuf == d.setupBuf
    ensures at.outEp[0] == d.outEp[0].(xferCount := |data|) && at.inEp == d.inEp && at.log == d.log
    ensures at.reg[0] == Hw(d.reg[0], RxDone(true)).(ctrRx := false)
  {
    hide Received, RxCount, CopyHalves, Callback, Configured;
    var d1 := Received(d, 0, data, true);
    PacketStands(d, lay, data, true);
    at := AcceptSetup(d1);
    CopyPutsAt(d1.pma, d.outEp[0].pmaAddress, d.ram, d.setupBuf, data);
    CallbackRam(at, SetupStage, app);
  }

  /** When the application is told of a data packet, it is where the pointer of the structure was, and the
      pointer is behind it. */
  lemma DataReachesBuffer(d: Device, lay: Layout, data: seq<byte>, app: App) returns (at: Device)
    requires Configured(d, lay) && CanReceive(d, 0, data, false)
    requires d.outEp[0].xferBuff + Even(|data|) <= |d.ram|
    ensures var d', c := ServeEndpoint(Received(d, 0, data, false), 0, app), Callback(at, DataOut(0), app);
      && d'.ram == c.ram == at.ram && d'.log == c.log && d'.inEp == c.inEp && d'.outEp == c.outEp
      && d'.usbAddress == c.usbAddress && d'.daddr == c.daddr
      && d'.reg == c.reg[0 := c.reg[0].(statRx := Valid)]
    ensures PutAt(d.ram, at.ram, d.outEp[0].xferBuff, data)
    ensures at.outEp[0] == d.outEp[0].(xferCount := |data|, xferBuff := d.outEp[0].xferBuff + |data|)
    ensures at.inEp == d.inEp && at.log == d.log && at.reg[0] == Hw(d.reg[0], RxDone(false)).(ctrRx := false)
    ensures CONTROL_OUT in lay && Configured(at, lay)
  {
    hide Received, Callback, EncodeRx, PutHalf, Configured, AcceptEp0Out;
    at := AcceptEp0Out(Received(d, 0, data, false));
    ConfiguredAfterData(d, lay, data);
    PacketStands(d, lay, data, false);
    AcceptedData(d, lay, data);
    CallbackRam(at, DataOut(0), app);
  }

  lemma ConfiguredAfterData(d: Device, lay: Layout, data: seq<byte>)
    requires Configured(d, lay) && CanReceive(d, 0, data, false)
    ensures CONTROL_OUT in lay && Configured(AcceptEp0Out(Received(d, 0, data, false)), lay)
  {
    hide Received, ViewOk, ViewOf, ActedOn, Configured, AcceptEp0Out, Capacity, GetHalf;
    var d1 := Received(d, 0, data, false);
    ReceivedActs(d, lay, 0, data);
    ActedOnKeepsConfigured(d, d1, lay, CONTROL_OUT);
    AcceptEp0Acts(d1, lay);
    ActedOnKeepsConfigured(d1, AcceptEp0Out(d1), lay, CONTROL_OUT);
  }

  lemma AcceptedData(d: Device, lay: Layout, data: seq<byte>)
    requires Configured(d, lay) && CONTROL_OUT in lay && CanReceive(d, 0, data, false)
    requires d.outEp[0].xferBuff + Even(|data|) <= |d.ram|
    ensures var d1, b := Received(d, 0, data, false), d.outEp[0].xferBuff;
      var at := AcceptEp0Out(d1);
      && PutAt(d.ram, at.ram, b, data) && at.outEp[0] == d.outEp[0].(xferCount := |data|, xferBuff := b + |data|)
      && at.inEp == d1.inEp && at.log == d1.log && at.reg[0] == d1.reg[0].(ctrRx := false)
  {
    hide Received, RxCount, CopyHalves, Configured, PutAt, Capacity, GetHalf;
    var d1, b := Received(d, 0, data, false), d.outEp[0].xferBuff;
    PacketStands(d, lay, data, false);
    RxCountOfPma(d1, AckRx(d1, 0));
    if data == [] {
      NothingPut(d.ram, b);
    } else {
      CopyPutsAt(d1.pma, d.outEp[0].pmaAddress, d.ram, b, data);
    }
  }

  lemma RxCountOfPma(d: Device, d': Device)
    requires d'.pma == d.pma
    ensures RxCount(d', 0) == RxCount(d, 0)
  {}

  lemma NothingPut(ram: seq<byte>, b: nat)
    requires b <= |ram|
    ensures PutAt(ram, ram, b, [])
  {}

  lemma CallbackRam(d: Device, e: Event, app: App)
    ensures Callback(d, e, app).ram == d.ram
  {
    RunCallsKeepRam(Note(d, e), app(Note(d, e)));
  }

  /** And when the turn is over endpoint 0 takes the next packet, of up to its packet size, whatever the
      callback did within the configuration. */
  lemma ReadyForNextPacket(d: Device, lay: Layout, data: seq<byte>, app: App, next: seq<byte>)
    requires Configured(d, lay) && CanReceive(d, 0, data, false) && LegalApp(app, lay)
    ensures var d' := ServeEndpoint(Received(d, 0, data, false), 0, app);
      Configured(d', lay) && (|next| <= d'.outEp[0].maxPacket ==> CanReceive(d', 0, next, false))
  {
    hide Received, Callback, EncodeRx, Capacity, PutHalf, ViewOk, ViewOf, ActedOn, Configured, GetHalf, AcceptEp0Out;
    var d1 := Received(d, 0, data, false);
    var c := Callback(AcceptEp0Out(d1), DataOut(0), app);
    ConfiguredAfterData(d, lay, data);
    CallbackKeeps(AcceptEp0Out(d1), DataOut(0), app, lay, CONTROL_OUT);
    RearmEp0Acts(c, lay);
    ActedOnKeepsConfigured(c, RearmEp0(c), lay, CONTROL_OUT);
    if |next| <= c.outEp[0].maxPacket {
      RearmedTakes(c, lay, next);
    }
    assert ServeEndpoint(d1, 0, app) == RearmEp0(c) by { PacketStands(d, lay, data, false); }
  }

  lemma RearmedTakes(c: Device, lay: Layout, next: seq<byte>)
    requires Configured(c, lay) && CONTROL_OUT in lay && |next| <= c.outEp[0].maxPacket
    ensures CanReceive(RearmEp0(c), 0, next, false)
  {
    hide EncodeRx, Capacity, GetHalf, PutHalf, Configured;
    ConfiguredKey(c, lay, CONTROL_OUT);
    var v := EncodeRx(c.outEp[0].maxPacket);
    GetPutHalf(c.pma, RxCountAt(0), v, RxCountAt(0));
    RxEncodingHolds(c.outEp[0].maxPacket);
  }

  /** When the application is told that a packet was sent, the pointer has moved past it and its size is
      the count; user memory is as it was.  All that follows the callback is the address it may have left
      to be applied. */
  lemma SentMovesPointer(d: Device, lay: Layout, app: App) returns (at: Device)
    requires Configured(d, lay) && CanSend(d, 0) && !d.reg[0].ctrRx
    ensures var d', p := ServeEndpoint(Sent(d, 0), 0, app), PacketToSend(d, 0);
      && d'.ram == at.ram == d.ram && at.pma == d.pma
      && at.inEp[0] == d.inEp[0].(xferCount := |p|, xferBuff := d.inEp[0].xferBuff + |p|)
    ensures at.outEp == d.outEp && at.log == d.log && at.reg[0] == Hw(d.reg[0], TxDone).(ctrTx := false)
    ensures var d', c := ServeEndpoint(Sent(d, 0), 0, app), Callback(at, DataIn(0), app);
      && d'.reg == c.reg && d'.pma == c.pma && d'.inEp == c.inEp && d'.outEp == c.outEp
      && if c.usbAddress > 0 && c.inEp[0].xferLen == 0
         then d'.daddr == WithBit7(c.usbAddress) && d'.usbAddress == 0 && d'.log == c.log + [AddressApplied(c.usbAddress)]
         else d' == c
  {
    hide Callback, GetHalf, Capacity, EncodeRx, Configured;
    FlaggedIsConfigured(d, lay, 0);
    ConfiguredKey(d, lay, CONTROL_IN);
    at := FinishEp0In(Sent(d, 0));
    CallbackRam(at, DataIn(0), app);
  }
}
