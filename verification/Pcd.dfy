/** The USB device controller driver as functions on its whole state: endpoint registers, packet
    memory, user memory, the two arrays of endpoint structures and the address latch.

    The `num` and `is_in` members of an endpoint structure always equal its place in the two arrays
    and are not stored.  `log` is a history variable: what the driver told its application, and what
    happened to the device address, in order. */
module Pcd {
  import opened EndpointRegister
  import opened PacketMemory
  import opened PcdRegisters

  datatype Ep = Ep(
    isStall: bool, epType: byte,
    pmaAddress: half, pmaAddr0: half, pmaAddr1: half, doubleBuffer: bool,
    maxPacket: nat, xferBuff: nat, xferLen: nat, xferCount: nat)

  datatype Event =
    | SetupStage
    | DataOut(n: EpNum)
    | ContinueOut(n: EpNum)
    | DataIn(n: EpNum)
    | ContinueIn(n: EpNum)
    | AddressRequested(a: byte)
    | AddressCleared
    | AddressApplied(a: byte)

  datatype DeviceState = DeviceState(
    reg: seq<EndpointRecord>, pma: seq<byte>, ram: seq<byte>,
    inEp: seq<Ep>, outEp: seq<Ep>,
    usbAddress: byte, daddr: byte, setupBuf: nat,
    log: seq<Event>)

  const RESET_RECORD := EndpointRecord(false, false, Disabled, false, Bulk, false, false, false, Disabled, 0)
  const RESET_EP := Ep(false, 0, 0, 0, 0, false, 0, 0, 0, 0)

  predicate EightEndpoints(d: DeviceState) {
    |d.reg| == 8 && |d.inEp| == 8 && |d.outEp| == 8
  }

  type Device = d: DeviceState | EightEndpoints(d)
    witness DeviceState(seq(8, i => RESET_RECORD), [], [], seq(8, i => RESET_EP), seq(8, i => RESET_EP), 0, 0, 0, [])

  const DADDR_EF := 0x80

  // ---------- parts of the state ----------

  function GetEp(d: Device, n: EpNum, isIn: bool): Ep {
    if isIn then d.inEp[n] else d.outEp[n]
  }

  function SetEp(d: Device, n: EpNum, isIn: bool, e: Ep): Device {
    if isIn then d.(inEp := d.inEp[n := e]) else d.(outEp := d.outEp[n := e])
  }

  function SetReg(d: Device, n: EpNum, e: EndpointRecord): Device {
    d.(reg := d.reg[n := e])
  }

  /** Buffer descriptor table: four halfwords an endpoint, at the start of packet memory. */
  function TxAddressAt(n: EpNum): nat { 8 * n }
  function TxCountAt(n: EpNum): nat { 8 * n + 2 }
  function RxAddressAt(n: EpNum): nat { 8 * n + 4 }
  function RxCountAt(n: EpNum): nat { 8 * n + 6 }

  function Describe(d: Device, at: nat, v: half): Device {
    d.(pma := PutHalf(d.pma, at, v))
  }

  function SetTxAddress(d: Device, n: EpNum, a: half): Device { Describe(d, TxAddressAt(n), a / 2 * 2) }
  function SetRxAddress(d: Device, n: EpNum, a: half): Device { Describe(d, RxAddressAt(n), a / 2 * 2) }
  function SetTxCount(d: Device, n: EpNum, w: nat): Device { Describe(d, TxCountAt(n), w % 0x1_0000) }
  function SetRxCount(d: Device, n: EpNum, w: nat): Device { Describe(d, RxCountAt(n), EncodeRx(w)) }
  /** The same halfword written as a plain count for buffer 1 of a double-buffered IN endpoint. */
  function SetTxCount1(d: Device, n: EpNum, w: nat): Device { Describe(d, RxCountAt(n), w % 0x1_0000) }

  function TxCount(d: Device, n: EpNum): nat { CountField(GetHalf(d.pma, TxCountAt(n))) }
  function RxCount(d: Device, n: EpNum): nat { CountField(GetHalf(d.pma, RxCountAt(n))) }

  function WriteBuffer(d: Device, usrBuf: nat, addr: nat, nBytes: nat): Device {
    d.(pma := CopyHalves(d.pma, addr, d.ram, usrBuf, HalfCount(nBytes)))
  }

  function ReadBuffer(d: Device, usrBuf: nat, addr: nat, nBytes: nat): Device {
    d.(ram := CopyHalves(d.ram, usrBuf, d.pma, addr, HalfCount(nBytes)))
  }

  function Note(d: Device, e: Event): Device {
    d.(log := d.log + [e])
  }

  // ---------- driver interface ----------

  function DescribeEp(d: Device, n: EpNum, isIn: bool): Device {
    var ep := GetEp(d, n, isIn);
    if ep.doubleBuffer then SetRxAddress(SetTxAddress(d, n, ep.pmaAddr0), n, ep.pmaAddr1)
    else if isIn then SetTxAddress(d, n, ep.pmaAddress)
    else SetRxCount(SetRxAddress(d, n, ep.pmaAddress), n, ep.maxPacket)
  }

  function Open(d: Device, n: EpNum, isIn: bool, mps: half, t: byte): Device {
    var ep := GetEp(d, n, isIn).(maxPacket := mps, epType := t);
    DescribeEp(SetReg(SetEp(d, n, isIn, ep), n, OpenUpdate(n, isIn, t, d.reg[n], ep.doubleBuffer)), n, isIn)
  }

  function Close(d: Device, n: EpNum, isIn: bool): Device {
    SetReg(d, n, CloseUpdate(isIn, d.reg[n], GetEp(d, n, isIn).doubleBuffer))
  }

  /** The first packet of what remains. */
  function Chunk(len: nat, maxPacket: nat): nat {
    if len > maxPacket then maxPacket else len
  }

  function StartTransfer(e: Ep, buf: nat, len: nat): Ep {
    e.(xferBuff := buf, xferCount := 0, xferLen := len - Chunk(len, e.maxPacket))
  }

  function Receive(d: Device, n: EpNum, buf: nat, len: nat): Device {
    var d1 := SetEp(d, n, false, StartTransfer(d.outEp[n], buf, len));
    SetReg(SetRxCount(d1, n, Chunk(len, d.outEp[n].maxPacket)), n, ReceiveUpdate(d.reg[n]))
  }

  function Transmit(d: Device, n: EpNum, buf: nat, len: nat): Device {
    var ep := d.inEp[n];
    var k := Chunk(len, ep.maxPacket);
    var d1 := SetEp(d, n, true, StartTransfer(ep, buf, len));
    var d2 :=
      if !ep.doubleBuffer then SetTxCount(WriteBuffer(d1, buf, ep.pmaAddress, k), n, k)
      else WriteBuffer(SetTxCount1(d1, n, k), buf, if d.reg[n].dtogTx then ep.pmaAddr1 else ep.pmaAddr0, k);
    SetReg(d2, n, TransmitUpdate(d.reg[n], ep.doubleBuffer))
  }

  function SetStall(d: Device, n: EpNum, isIn: bool): Device {
    SetReg(SetEp(d, n, isIn, GetEp(d, n, isIn).(isStall := true)), n, SetStallUpdate(n, isIn, d.reg[n]))
  }

  function ClrStall(d: Device, n: EpNum, isIn: bool): Device {
    SetReg(SetEp(d, n, isIn, GetEp(d, n, isIn).(isStall := false)), n, ClrStallUpdate(isIn, d.reg[n]))
  }

  /** A zero address takes effect at once; any other waits for the end of the status stage. */
  function AssignAddress(d: Device, a: byte): Device {
    if a == 0 then Note(d.(daddr := DADDR_EF), AddressCleared)
    else Note(d.(usbAddress := a), AddressRequested(a))
  }

  function PmaConfig(d: Device, n: EpNum, isIn: bool, single: bool, pmaAddress: nat): Device {
    var ep := GetEp(d, n, isIn);
    SetEp(d, n, isIn,
      if single then ep.(doubleBuffer := false, pmaAddress := pmaAddress % 0x1_0000)
      else ep.(doubleBuffer := true, pmaAddr0 := pmaAddress % 0x1_0000, pmaAddr1 := pmaAddress / 0x1_0000 % 0x1_0000))
  }

  function Call(d: Device, c: ApiCall): Device {
    match c
    case OpenCall(n, isIn, mps, t) => Open(d, n, isIn, mps, t)
    case CloseCall(n, isIn) => Close(d, n, isIn)
    case ReceiveCall(n, buf, len) => Receive(d, n, buf, len)
    case TransmitCall(n, buf, len) => Transmit(d, n, buf, len)
    case SetStallCall(n, isIn) => SetStall(d, n, isIn)
    case ClrStallCall(n, isIn) => ClrStall(d, n, isIn)
    case SetAddressCall(a) => AssignAddress(d, a)
    case PmaConfigCall(n, isIn, single, pmaAddress) => PmaConfig(d, n, isIn, single, pmaAddress)
  }

  function RunCalls(d: Device, cs: seq<ApiCall>): Device
    decreases cs
  {
    if cs == [] then d else RunCalls(Call(d, cs[0]), cs[1..])
  }

  // ---------- endpoint interrupt service ----------

  /** The application: which driver calls a callback makes.  It sees the whole state, and the last
      log entry says which callback is running. */
  type App = Device -> seq<ApiCall>

  function Callback(d: Device, e: Event, app: App): Device {
    var d1 := Note(d, e);
    RunCalls(d1, app(d1))
  }

  /** The address in the seven low bits, and the enable bit. */
  function WithBit7(a: byte): (r: byte)
    ensures r >= 0x80 && r % 0x80 == a % 0x80
  {
    if a >= 0x80 then a else a + 0x80
  }

  function ApplyAddress(d: Device): Device {
    if d.usbAddress > 0 && d.inEp[0].xferLen == 0 then
      Note(d.(daddr := WithBit7(d.usbAddress), usbAddress := 0), AddressApplied(d.usbAddress))
    else d
  }

  function AckRx(d: Device, n: EpNum): Device {
    SetReg(d, n, d.reg[n].(ctrRx := false))
  }

  function AckTx(d: Device, n: EpNum): Device {
    SetReg(d, n, d.reg[n].(ctrTx := false))
  }

  /** Gives the application's half of a double buffer back to hardware. */
  function FreeUserBuffer(d: Device, n: EpNum, isIn: bool): Device {
    SetReg(d, n, if isIn then d.reg[n].(dtogRx := !d.reg[n].dtogRx) else d.reg[n].(dtogTx := !d.reg[n].dtogTx))
  }

  /** Endpoint 0 after a sent packet, before the callback. */
  function FinishEp0In(d: Device): Device {
    var d1 := AckTx(d, 0);
    var count := TxCount(d1, 0);
    var ep := d1.inEp[0];
    SetEp(d1, 0, true, ep.(xferCount := count, xferBuff := ep.xferBuff + count))
  }

  function ServeEp0In(d: Device, app: App): Device {
    ApplyAddress(Callback(FinishEp0In(d), DataIn(0), app))
  }

  function AcceptSetup(d: Device): Device {
    var count := RxCount(d, 0);
    var d1 := SetEp(d, 0, false, d.outEp[0].(xferCount := count));
    AckRx(ReadBuffer(d1, d1.setupBuf, d1.outEp[0].pmaAddress, count), 0)
  }

  function ServeEp0Setup(d: Device, app: App): Device {
    Callback(AcceptSetup(d), SetupStage, app)
  }

  function AcceptEp0Out(d: Device): Device {
    var d1 := AckRx(d, 0);
    var count := RxCount(d1, 0);
    var ep := d1.outEp[0].(xferCount := count);
    if count != 0 then SetEp(ReadBuffer(d1, ep.xferBuff, ep.pmaAddress, count), 0, false, ep.(xferBuff := ep.xferBuff + count))
    else SetEp(d1, 0, false, ep)
  }

  function RearmEp0(d: Device): Device {
    SetReg(SetRxCount(d, 0, d.outEp[0].maxPacket), 0, ReceiveUpdate(d.reg[0]))
  }

  function ServeEp0Out(d: Device, app: App): Device {
    RearmEp0(Callback(AcceptEp0Out(d), DataOut(0), app))
  }

  function ServeEp0(d: Device, app: App): Device {
    if !d.reg[0].ctrRx then ServeEp0In(d, app)
    else if d.reg[0].setup then ServeEp0Setup(d, app)
    else ServeEp0Out(d, app)
  }

  /** The received packet moved to user memory; for a double buffer, from the buffer DTOG_RX says was
      filled, which is then given back to hardware. */
  function TakePacket(d: Device, n: EpNum): Device {
    var ep := d.outEp[n];
    if !ep.doubleBuffer then
      if RxCount(d, n) != 0 then ReadBuffer(d, ep.xferBuff, ep.pmaAddress, RxCount(d, n)) else d
    else if d.reg[n].dtogRx then
      FreeUserBuffer(if TxCount(d, n) != 0 then ReadBuffer(d, ep.xferBuff, ep.pmaAddr0, TxCount(d, n)) else d, n, false)
    else
      FreeUserBuffer(if RxCount(d, n) != 0 then ReadBuffer(d, ep.xferBuff, ep.pmaAddr1, RxCount(d, n)) else d, n, false)
  }

  function PacketSize(d: Device, n: EpNum): nat {
    if d.outEp[n].doubleBuffer && d.reg[n].dtogRx then TxCount(d, n) else RxCount(d, n)
  }

  /** Endpoint n after a received packet, before its dispatch. */
  function AcceptOut(d: Device, n: EpNum): Device {
    var d1 := AckRx(d, n);
    var count := PacketSize(d1, n);
    var d2 := TakePacket(d1, n);
    var ep := d2.outEp[n];
    SetEp(d2, n, false, ep.(xferCount := ep.xferCount + count, xferBuff := ep.xferBuff + count))
  }

  function ServeOut(d: Device, n: EpNum, app: App): Device {
    var d3 := AcceptOut(d, n);
    var ep := d3.outEp[n];
    if ep.xferLen == 0 || PacketSize(AckRx(d, n), n) < ep.maxPacket then Callback(d3, DataOut(n), app)
    else Receive(Note(d3, ContinueOut(n)), n, ep.xferBuff, ep.xferLen)
  }

  /** The packet just sent is copied to packet memory once more before the pointer moves on. */
  function RecopyPacket(d: Device, n: EpNum): Device {
    var ep := d.inEp[n];
    if !ep.doubleBuffer then
      if TxCount(d, n) != 0 then WriteBuffer(d, ep.xferBuff, ep.pmaAddress, TxCount(d, n)) else d
    else if d.reg[n].dtogTx then
      FreeUserBuffer(if TxCount(d, n) != 0 then WriteBuffer(d, ep.xferBuff, ep.pmaAddr0, TxCount(d, n)) else d, n, true)
    else
      FreeUserBuffer(if RxCount(d, n) != 0 then WriteBuffer(d, ep.xferBuff, ep.pmaAddr1, RxCount(d, n)) else d, n, true)
  }

  /** Endpoint n after a sent packet, before its dispatch. */
  function FinishIn(d: Device, n: EpNum): Device {
    var d2 := RecopyPacket(AckTx(d, n), n);
    var count := TxCount(d2, n);
    var ep := d2.inEp[n];
    SetEp(d2, n, true, ep.(xferCount := count, xferBuff := ep.xferBuff + count))
  }

  function ServeIn(d: Device, n: EpNum, app: App): Device {
    var d3 := FinishIn(d, n);
    var ep := d3.inEp[n];
    if ep.xferLen == 0 then Callback(d3, DataIn(n), app)
    else Transmit(Note(d3, ContinueIn(n)), n, ep.xferBuff, ep.xferLen)
  }

  /** One turn of the interrupt loop for the endpoint hardware names: endpoint 0 is served in one
      direction, any other endpoint in both, as read from its register at the start of the turn. */
  function ServeEndpoint(d: Device, n: EpNum, app: App): Device {
    if n == 0 then ServeEp0(d, app)
    else
      var epVal := d.reg[n];
      var d1 := if epVal.ctrRx then ServeOut(d, n, app) else d;
      if epVal.ctrTx then ServeIn(d1, n, app) else d1
  }

  predicate Pending(d: Device, n: EpNum) {
    d.reg[n].ctrRx || d.reg[n].ctrTx
  }
}
