/** Double-buffered OUT endpoints.  Hardware fills the buffer DTOG_RX names and stops while DTOG_RX
    equals DTOG_TX, which here says whose turn it is; the driver reads the other buffer and toggles
    DTOG_TX to give it back.

    The steps are as fine as the memory accesses: every register macro is a read and a later write,
    and hardware may act between any two accesses of the driver. */
module DoubleBuffer {
  import opened EndpointRegister
  import opened PacketMemory
  import opened PcdRegisters
  import Pcd

  /** Where the receive service of the endpoint stands. */
  datatype Pc = Outside | Entered | Cleared | Copied | Freed

  /** A macro whose read has happened and whose write has not. */
  datatype Flight = NoFlight | Flight(m: Macro, read: EndpointRecord)

  /** `arrived` and `delivered` are histories: the packets hardware accepted and those the service copied
      to the user. */
  datatype State = State(
    reg: EndpointRecord, buf0: seq<byte>, buf1: seq<byte>,
    pc: Pc, flight: Flight,
    arrived: seq<seq<byte>>, delivered: seq<seq<byte>>)

  datatype Step =
    | HwFill(data: seq<byte>)
    | HwAccept(data: seq<byte>)
    | Enter
    | Read(m: Macro)
    | Write
    | Copy
    | Leave

  /** Hardware may use its buffer. */
  predicate HwMayFill(s: State) {
    s.reg.statRx == Valid && s.reg.dtogRx != s.reg.dtogTx
  }

  /** Bytes going into the buffer DTOG_RX names. */
  function Fill(s: State, data: seq<byte>): State {
    if s.reg.dtogRx then s.(buf1 := data) else s.(buf0 := data)
  }

  /** The macros of the service, each at its place, and of EP_Receive, called from the service's end or
      from outside it. */
  predicate MacroAllowed(pc: Pc, m: Macro) {
    match pc
    case Entered => m == ClearCtrRx
    case Cleared => false
    case Copied => m == ToggleTx
    case Freed => m == SetRxStatus(Valid)
    case Outside => m == SetRxStatus(Valid)
  }

  predicate Enabled(s: State, t: Step) {
    match t
    case HwFill(_) => HwMayFill(s)
    case HwAccept(_) => HwMayFill(s)
    case Enter => s.pc == Outside && s.flight.NoFlight? && s.reg.ctrRx
    case Read(m) => s.flight.NoFlight? && MacroAllowed(s.pc, m)
    case Write => s.flight.Flight?
    case Copy => s.pc == Cleared
    case Leave => s.pc == Freed && s.flight.NoFlight?
  }

  function AfterWrite(pc: Pc): Pc {
    if pc == Entered then Cleared else if pc == Copied then Freed else pc
  }

  /** The buffer the service reads. */
  function ServiceBuffer(s: State): seq<byte> {
    if s.reg.dtogRx then s.buf0 else s.buf1
  }

  function Next(s: State, t: Step): State
    requires Enabled(s, t)
  {
    match t
    case HwFill(data) => Fill(s, data)
    case HwAccept(data) =>
      Fill(s, data).(reg := s.reg.(ctrRx := true, dtogRx := !s.reg.dtogRx), arrived := s.arrived + [data])
    case Enter => s.(pc := Entered)
    case Read(m) => s.(flight := Flight(m, s.reg))
    case Write =>
      s.(reg := RaceEffect(s.flight.m, s.flight.read, s.reg), flight := NoFlight, pc := AfterWrite(s.pc))
    case Copy => s.(delivered := s.delivered + [ServiceBuffer(s)], pc := Copied)
    case Leave => s.(pc := Outside)
  }

  // ---------- ownership ----------

  /** A packet accepted by hardware and not yet copied by the service. */
  predicate Waiting(s: State) {
    s.reg.ctrRx || s.pc == Cleared
  }

  predicate Owned(s: State) {
    && s.reg.statRx == Valid
    && (s.flight.Flight? ==> MacroAllowed(s.pc, s.flight.m) && s.flight.read.statRx == Valid)
    && (s.pc == Entered ==> s.reg.ctrRx)
    && (s.pc == Cleared || s.pc == Copied ==> !s.reg.ctrRx)
    && (s.reg.dtogRx == s.reg.dtogTx <==> Waiting(s) || s.pc == Copied)
    && s.arrived == s.delivered + if Waiting(s) then [ServiceBuffer(s)] else []
  }

  /** Opening the endpoint with no completion pending gives the first buffer to hardware. */
  lemma OpenOwns(n: EpNum, t: byte, e: EndpointRecord, buf0: seq<byte>, buf1: seq<byte>)
    ensures Owned(State(OpenUpdate(n, false, t, e, true), buf0, buf1, Outside, NoFlight, [], [])) <==> !e.ctrRx
  {}

  lemma StepOwned(s: State, t: Step)
    requires Owned(s) && Enabled(s, t)
    ensures Owned(Next(s, t))
  {
    hide Toggled, OrAddress;
    match t
    case HwFill(data) =>
    case HwAccept(data) =>
    case Write =>
      ValidAgain();
    case _ =>
  }

  lemma ValidAgain()
    ensures Toggled(Valid, Valid, Valid) == Valid
  {}

  predicate RunEnabled(s: State, ts: seq<Step>)
    decreases ts
  {
    ts == [] || (Enabled(s, ts[0]) && RunEnabled(Next(s, ts[0]), ts[1..]))
  }

  function Run(s: State, ts: seq<Step>): State
    requires RunEnabled(s, ts)
    decreases ts
  {
    if ts == [] then s else Run(Next(s, ts[0]), ts[1..])
  }

  lemma {:induction false} RunOwned(s: State, ts: seq<Step>)
    requires Owned(s) && RunEnabled(s, ts)
    ensures Owned(Run(s, ts))
    decreases ts
  {
    hide Owned, Enabled, Next;
    if ts != [] {
      StepOwned(s, ts[0]);
      RunOwned(Next(s, ts[0]), ts[1..]);
    }
  }

  /** From opening the endpoint, over every interleaving of hardware, interrupt service and EP_Receive:
      a pending completion means equal toggles; packets are delivered in the order they arrived, each
      once, and at most the newest is still to be delivered; when the service copies, hardware is
      stopped and the buffer read is the one it filled last; and with nothing pending hardware can go on. */
  lemma OrderedDelivery(n: EpNum, t: byte, e: EndpointRecord, buf0: seq<byte>, buf1: seq<byte>, ts: seq<Step>)
    requires !e.ctrRx
    requires RunEnabled(State(OpenUpdate(n, false, t, e, true), buf0, buf1, Outside, NoFlight, [], []), ts)
    ensures var s := Run(State(OpenUpdate(n, false, t, e, true), buf0, buf1, Outside, NoFlight, [], []), ts);
      && (s.reg.ctrRx ==> s.reg.dtogRx == s.reg.dtogTx)
      && s.delivered <= s.arrived <= s.delivered + [ServiceBuffer(s)]
      && (s.pc == Cleared ==> !HwMayFill(s) && s.arrived == s.delivered + [ServiceBuffer(s)])
      && (s.pc == Outside && !s.reg.ctrRx ==> HwMayFill(s) && s.delivered == s.arrived)
  {
    hide OpenUpdate, Enabled, Next;
    OpenOwns(n, t, e, buf0, buf1);
    RunOwned(State(OpenUpdate(n, false, t, e, true), buf0, buf1, Outside, NoFlight, [], []), ts);
  }

  // ---------- the service in one piece ----------

  const SERVICE := [Enter, Read(ClearCtrRx), Write, Copy, Read(ToggleTx), Write]

  /** The count the service of a double-buffered packet goes by: that of the buffer DTOG_RX has left. */
  function PacketCount(d: Pcd.Device, n: EpNum): nat {
    GetHalf(d.pma, if d.reg[n].dtogRx then Pcd.TxCountAt(n) else Pcd.RxCountAt(n)) % 0x400
  }

  /** Uninterrupted, the steps are the driver's service of a double-buffered packet: same register,
      the buffer read is the one whose address and count the service takes, and the pointer moves past it. */
  lemma ServiceInOnePiece(d: Pcd.Device, n: EpNum, s: State)
    requires d.outEp[n].doubleBuffer && s.reg == d.reg[n] && s.reg.ctrRx && s.pc == Outside && s.flight.NoFlight?
    ensures RunEnabled(s, SERVICE)
    ensures var s' := Run(s, SERVICE);
      && Pcd.AcceptOut(d, n).reg[n] == s'.reg
      && s'.delivered == s.delivered + [if s.reg.dtogRx then s.buf0 else s.buf1]
      && MovedToUser(d, Pcd.AcceptOut(d, n), n)
  {
    hide Run, RunEnabled, Enabled, Next, MovedToUser;
    ServiceSteps(s);
    AcceptedDouble(d, n);
  }

  lemma ServiceSteps(s: State)
    requires s.reg.ctrRx && s.pc == Outside && s.flight.NoFlight?
    ensures RunEnabled(s, SERVICE)
    ensures Run(s, SERVICE) == State(s.reg.(ctrRx := false, dtogTx := !s.reg.dtogTx), s.buf0, s.buf1, Freed, NoFlight,
                                     s.arrived, s.delivered + [ServiceBuffer(s)])
  {
    hide Next, Enabled;
    ServiceStates(s);
    var s2 := Next(Next(s, Enter), Read(ClearCtrRx));
    var s4 := Next(Next(s2, Write), Copy);
    RunPair(s4, [Read(ToggleTx), Write]);
    assert SERVICE[4..] == [Read(ToggleTx), Write];
    RunPair(s2, SERVICE[2..]);
    assert SERVICE[2..][2..] == SERVICE[4..];
    RunPair(s, SERVICE);
  }

  lemma ServiceStates(s: State)
    requires s.reg.ctrRx && s.pc == Outside && s.flight.NoFlight?
    ensures Enabled(s, Enter) && Enabled(Next(s, Enter), Read(ClearCtrRx))
    ensures var s2 := Next(Next(s, Enter), Read(ClearCtrRx));
      Enabled(s2, Write) && Enabled(Next(s2, Write), Copy)
      && var s4 := Next(Next(s2, Write), Copy);
         Enabled(s4, Read(ToggleTx)) && Enabled(Next(s4, Read(ToggleTx)), Write)
         && Next(Next(s4, Read(ToggleTx)), Write)
            == State(s.reg.(ctrRx := false, dtogTx := !s.reg.dtogTx), s.buf0, s.buf1, Freed, NoFlight,
                     s.arrived, s.delivered + [ServiceBuffer(s)])
  {
    hide Toggled, OrAddress;
  }

  lemma RunPair(s: State, ts: seq<Step>)
    requires |ts| >= 2 && Enabled(s, ts[0]) && Enabled(Next(s, ts[0]), ts[1])
    ensures var s2 := Next(Next(s, ts[0]), ts[1]);
      RunEnabled(s2, ts[2..]) ==> RunEnabled(s, ts) && Run(s, ts) == Run(s2, ts[2..])
    ensures |ts| == 2 ==> RunEnabled(s, ts) && Run(s, ts) == Next(Next(s, ts[0]), ts[1])
  {
    hide Next, Enabled;
    var s1 := Next(s, ts[0]);
    assert ts[1..][0] == ts[1] && ts[1..][1..] == ts[2..];
    var s2 := Next(s1, ts[1]);
    if RunEnabled(s2, ts[2..]) {
      assert RunEnabled(s1, ts[1..]) && Run(s1, ts[1..]) == Run(s2, ts[2..]);
    }
  }

  predicate MovedToUser(d: Pcd.Device, d': Pcd.Device, n: EpNum) {
    var e, w := d.outEp[n], PacketCount(d, n);
    && d'.outEp[n] == e.(xferBuff := e.xferBuff + w, xferCount := e.xferCount + w)
    && d'.ram == if w == 0 then d.ram
         else CopyHalves(d.ram, e.xferBuff, d.pma, if d.reg[n].dtogRx then e.pmaAddr0 else e.pmaAddr1, HalfCount(w))
  }

  lemma AcceptedDouble(d: Pcd.Device, n: EpNum)
    requires d.outEp[n].doubleBuffer
    ensures var d' := Pcd.AcceptOut(d, n);
      d'.reg[n] == d.reg[n].(ctrRx := false, dtogTx := !d.reg[n].dtogTx) && MovedToUser(d, d', n)
  {
    hide CopyHalves, GetHalf;
  }

  // ---------- what the driver tells hardware about the buffers ----------

  /** One PMAConfig word names both buffers: the low halfword the first, the high halfword the second; and
      opening puts both addresses where hardware looks for them. */
  lemma BuffersPlaced(d: Pcd.Device, n: EpNum, isIn: bool, first: half, second: half, mps: half, t: byte)
    requires |d.pma| >= 64
    ensures var d' := Pcd.Open(Pcd.PmaConfig(d, n, isIn, false, second * 0x1_0000 + first), n, isIn, mps, t);
      var ep := if isIn then d'.inEp[n] else d'.outEp[n];
      && ep.doubleBuffer && ep.pmaAddr0 == first && ep.pmaAddr1 == second && ep.maxPacket == mps
      && GetHalf(d'.pma, Pcd.TxAddressAt(n)) == first / 2 * 2 && GetHalf(d'.pma, Pcd.RxAddressAt(n)) == second / 2 * 2
  {
    hide GetHalf, PutHalf, OpenUpdate;
    var word := second * 0x1_0000 + first;
    assert word % 0x1_0000 == first && word / 0x1_0000 % 0x1_0000 == second;
    var pma1 := PutHalf(d.pma, Pcd.TxAddressAt(n), first / 2 * 2);
    GetPutHalf(d.pma, Pcd.TxAddressAt(n), first / 2 * 2, 0);
    GetPutHalf(pma1, Pcd.RxAddressAt(n), second / 2 * 2, Pcd.TxAddressAt(n));
  }

  /** A packet from a double-buffered sender goes into the buffer DTOG_TX names, and hardware is told of it
      by the other toggle; but its size is told for the second buffer only: that of the first is what packet
      memory held before. */
  lemma SenderCountsOneBuffer(d: Pcd.Device, n: EpNum, buf: nat, len: nat, w: nat, at: nat)
    requires d.inEp[n].doubleBuffer && w == if len > d.inEp[n].maxPacket then d.inEp[n].maxPacket else len
    requires at == if d.reg[n].dtogTx then d.inEp[n].pmaAddr1 else d.inEp[n].pmaAddr0
    requires w < 0x400 && 64 <= at && at + w + w % 2 <= |d.pma| && buf + w + w % 2 <= |d.ram|
    ensures var d' := Pcd.Transmit(d, n, buf, len);
      && |d'.pma| == |d.pma| && d'.pma[at..at + w] == d.ram[buf..buf + w]
      && GetHalf(d'.pma, Pcd.RxCountAt(n)) == w && GetHalf(d'.pma, Pcd.TxCountAt(n)) == GetHalf(d.pma, Pcd.TxCountAt(n))
      && d'.reg[n] == d.reg[n].(statTx := Valid, dtogRx := !d.reg[n].dtogRx)
      && d'.inEp[n] == d.inEp[n].(xferBuff := buf, xferLen := len - w, xferCount := 0)
  {
    hide GetHalf, PutHalf, CopyHalves;
    CountThenCopy(d.pma, n, at, d.ram, buf, w);
  }

  lemma CountThenCopy(pma: seq<byte>, n: EpNum, at: nat, ram: seq<byte>, buf: nat, w: nat)
    requires w < 0x400 && 64 <= at && at + w + w % 2 <= |pma| && buf + w + w % 2 <= |ram|
    ensures var pma' := CopyHalves(PutHalf(pma, Pcd.RxCountAt(n), w), at, ram, buf, HalfCount(w));
      && |pma'| == |pma| && pma'[at..at + w] == ram[buf..buf + w]
      && GetHalf(pma', Pcd.RxCountAt(n)) == w && GetHalf(pma', Pcd.TxCountAt(n)) == GetHalf(pma, Pcd.TxCountAt(n))
  {
    hide GetHalf, PutHalf, CopyHalves;
    var pma1 := PutHalf(pma, Pcd.RxCountAt(n), w);
    GetPutHalf(pma, Pcd.RxCountAt(n), w, Pcd.TxCountAt(n));
    assert 2 * HalfCount(w) == w + w % 2;
    SpliceFacts(pma1, at, ram, buf, HalfCount(w), w);
    var pma2 := CopyHalves(pma1, at, ram, buf, HalfCount(w));
    HalfBefore(pma1, pma2, at, Pcd.RxCountAt(n));
    HalfBefore(pma1, pma2, at, Pcd.TxCountAt(n));
  }

  /** When a double-buffered sender's last packet is out, the pointer moves by the first buffer's count,
      whichever buffer was sent; the copy made once more and the buffer given back are the other toggle's. */
  lemma SenderMovesByFirstCount(d: Pcd.Device, n: EpNum, app: Pcd.App) returns (at: Pcd.Device)
    requires var e := d.inEp[n];
      e.doubleBuffer && e.xferLen == 0 && 64 <= e.pmaAddr0 <= |d.pma| && 64 <= e.pmaAddr1 <= |d.pma|
    ensures Pcd.ServeIn(d, n, app) == Pcd.Callback(at, Pcd.DataIn(n), app)
    ensures var e, w := d.inEp[n], GetHalf(d.pma, Pcd.TxCountAt(n)) % 0x400;
      at.inEp[n] == e.(xferCount := w, xferBuff := e.xferBuff + w)
    ensures at.reg[n] == d.reg[n].(ctrTx := false, dtogRx := !d.reg[n].dtogRx) && at.ram == d.ram && at.log == d.log
    ensures var e, second := d.inEp[n], !d.reg[n].dtogTx;
      var w := GetHalf(d.pma, if second then Pcd.RxCountAt(n) else Pcd.TxCountAt(n)) % 0x400;
      at.pma == if w == 0 then d.pma
        else CopyHalves(d.pma, if second then e.pmaAddr1 else e.pmaAddr0, d.ram, e.xferBuff, HalfCount(w))
  {
    hide GetHalf, CopyHalves;
    var e, first, second := d.inEp[n], Pcd.TxCount(d, n), Pcd.RxCount(d, n);
    at := Pcd.FinishIn(d, n);
    CopyHalvesOutside(d.pma, e.pmaAddr0, d.ram, e.xferBuff, HalfCount(first), 0, e.pmaAddr0);
    CopyHalvesOutside(d.pma, e.pmaAddr1, d.ram, e.xferBuff, HalfCount(second), 0, e.pmaAddr1);
    HalfBefore(d.pma, CopyHalves(d.pma, e.pmaAddr0, d.ram, e.xferBuff, HalfCount(first)), e.pmaAddr0, Pcd.TxCountAt(n));
    HalfBefore(d.pma, CopyHalves(d.pma, e.pmaAddr1, d.ram, e.xferBuff, HalfCount(second)), e.pmaAddr1, Pcd.TxCountAt(n));
  }

  lemma HalfBefore(m: seq<byte>, m': seq<byte>, at: nat, a: nat)
    requires |m'| == |m| && at <= |m| && m'[..at] == m[..at] && a + 2 <= at
    ensures GetHalf(m', a) == GetHalf(m, a)
  {
    assert m[..at][a] == m[a] && m'[..at][a] == m'[a] && m[..at][a + 1] == m[a + 1] && m'[..at][a + 1] == m'[a + 1];
  }

  /** A call on the OUT direction of endpoint n that leaves it double buffered. */
  predicate OutCall(c: ApiCall, n: EpNum) {
    match c
    case OpenCall(m, isIn, _, _) => m == n && !isIn
    case CloseCall(m, isIn) => m == n && !isIn
    case ReceiveCall(m, _, _) => m == n
    case SetStallCall(m, isIn) => m == n && !isIn
    case ClrStallCall(m, isIn) => m == n && !isIn
    case _ => false
  }

  /** The descriptor halfword with the capacity of the first buffer. */
  function FirstCapacity(d: Pcd.Device, n: EpNum): nat {
    Capacity(GetHalf(d.pma, Pcd.TxCountAt(n)))
  }

  lemma CallKeepsFirstCapacity(d: Pcd.Device, c: ApiCall, n: EpNum)
    requires d.outEp[n].doubleBuffer && OutCall(c, n)
    ensures FirstCapacity(Pcd.Call(d, c), n) == FirstCapacity(d, n) && Pcd.Call(d, c).outEp[n].doubleBuffer
  {
    hide GetHalf, PutHalf, EncodeRx, OpenUpdate, CloseUpdate, SetStallUpdate, ClrStallUpdate, Capacity;
    match c
    case OpenCall(_, _, _, _) =>
      var a, b := d.outEp[n].pmaAddr0 / 2 * 2, d.outEp[n].pmaAddr1 / 2 * 2;
      GetPutHalf(d.pma, Pcd.TxAddressAt(n), a, Pcd.TxCountAt(n));
      GetPutHalf(PutHalf(d.pma, Pcd.TxAddressAt(n), a), Pcd.RxAddressAt(n), b, Pcd.TxCountAt(n));
    case ReceiveCall(_, _, len) =>
      GetPutHalf(d.pma, Pcd.RxCountAt(n), EncodeRx(Pcd.Chunk(len, d.outEp[n].maxPacket)), Pcd.TxCountAt(n));
    case _ =>
  }

  /** The driver never tells hardware how large the first buffer of a double-buffered OUT endpoint is:
      whatever calls are made on it, opening and receiving included, the capacity hardware goes by is what
      packet memory held before.  So nothing the driver does keeps a packet within that buffer. */
  lemma {:induction false} FirstCapacityIsLeftOver(d: Pcd.Device, cs: seq<ApiCall>, n: EpNum)
    requires d.outEp[n].doubleBuffer && forall c :: c in cs ==> OutCall(c, n)
    ensures FirstCapacity(Pcd.RunCalls(d, cs), n) == FirstCapacity(d, n)
    decreases cs
  {
    hide FirstCapacity;
    if cs != [] {
      assert cs[0] in cs;
      CallKeepsFirstCapacity(d, cs[0], n);
      FirstCapacityIsLeftOver(Pcd.Call(d, cs[0]), cs[1..], n);
    }
  }
}
