/** The device together with its peripheral and host: the steps the whole system can take. */
module UsbTraffic {
  import opened EndpointRegister
  import opened EndpointRaces
  import opened PacketMemory
  import opened PcdRegisters
  import opened Pcd

  /** The bytes hardware sends for endpoint n: from the descriptor's address, as many as its count. */
  function PacketToSend(d: Device, n: EpNum): seq<byte> {
    var a := GetHalf(d.pma, TxAddressAt(n));
    if a + TxCount(d, n) <= |d.pma| then d.pma[a..a + TxCount(d, n)] else []
  }

  predicate CanSend(d: Device, n: EpNum) {
    d.reg[n].statTx == Valid
  }

  /** An IN transaction acknowledged by the host. */
  function Sent(d: Device, n: EpNum): Device {
    SetReg(d, n, Hw(d.reg[n], TxDone))
  }

  /** A SETUP is accepted also by an endpoint that answers NAK or STALL. */
  predicate CanReceive(d: Device, n: EpNum, data: seq<byte>, isSetup: bool) {
    && (d.reg[n].statRx == Valid || (isSetup && d.reg[n].statRx != Disabled))
    && |data| < 0x400 && |data| <= Capacity(GetHalf(d.pma, RxCountAt(n)))
  }

  function PutBytes(pma: seq<byte>, a: nat, data: seq<byte>): seq<byte> {
    if a + |data| <= |pma| then pma[..a] + data + pma[a + |data|..] else pma
  }

  /** The count halfword after reception: block bits kept, byte count filled in. */
  function WithCount(reg: half, count: nat): half
    requires count < 0x400
  {
    reg / 0x400 * 0x400 + count
  }

  /** Packet memory after a packet was put into the endpoint's receive buffer. */
  function Filled(d: Device, n: EpNum, data: seq<byte>): Device
    requires |data| < 0x400
  {
    var pma1 := PutBytes(d.pma, GetHalf(d.pma, RxAddressAt(n)), data);
    d.(pma := PutHalf(pma1, RxCountAt(n), WithCount(GetHalf(d.pma, RxCountAt(n)), |data|)))
  }

  /** An OUT or SETUP transaction accepted into packet memory. */
  function Received(d: Device, n: EpNum, data: seq<byte>, isSetup: bool): Device
    requires |data| < 0x400
  {
    SetReg(Filled(d, n, data), n, Hw(d.reg[n], RxDone(isSetup)))
  }

  datatype Step =
    | HostIn(n: EpNum)
    | HostOut(n: EpNum, data: seq<byte>, isSetup: bool)
    | DriverCall(c: ApiCall)
    | InterruptTurn(n: EpNum)

  predicate Enabled(d: Device, s: Step) {
    match s
    case HostIn(n) => CanSend(d, n)
    case HostOut(n, data, isSetup) => CanReceive(d, n, data, isSetup) && (isSetup ==> n == 0)
    case DriverCall(c) => true
    case InterruptTurn(n) => Pending(d, n)
  }

  function Next(d: Device, s: Step, app: App): Device
    requires Enabled(d, s)
  {
    match s
    case HostIn(n) => Sent(d, n)
    case HostOut(n, data, isSetup) => Received(d, n, data, isSetup)
    case DriverCall(c) => Call(d, c)
    case InterruptTurn(n) => ServeEndpoint(d, n, app)
  }
}
