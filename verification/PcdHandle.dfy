/** The driver as it runs: a handle whose endpoint structures, registers and memories are updated in
    place.  Every method is proved to have exactly the effect of its function on whole states, so all
    that is proved of those functions holds of the handle. */
module PcdHandle {
  import opened EndpointRegister
  import opened EndpointRaces
  import opened PacketMemory
  import opened PcdRegisters
  import opened Pcd
  import opened PcdInterrupt

  function DecodeAll(rs: seq<bv16>): (es: seq<EndpointRecord>)
    ensures |es| == |rs|
  {
    seq(|rs|, i requires 0 <= i < |rs| => Decode(rs[i]))
  }

  /** Writing one element twice keeps the second value; writing it back changes nothing. */
  lemma Updates()
    ensures forall s: seq<EndpointRecord>, i: nat, a, b {:trigger s[i := a][i := b]} :: i < |s| ==> s[i := a][i := b] == s[i := b]
    ensures forall s: seq<EndpointRecord>, i: nat :: i < |s| ==> s[i := s[i]] == s
    ensures forall s: seq<Ep>, i: nat, a, b {:trigger s[i := a][i := b]} :: i < |s| ==> s[i := a][i := b] == s[i := b]
  {}

  lemma SetRegSame(d: Device, n: EpNum, e: EndpointRecord)
    requires e == d.reg[n]
    ensures SetReg(d, n, e) == d
  {
    assert d.reg[n := e] == d.reg;
  }

  lemma Twice(d: Device, n: EpNum, a: EndpointRecord, b: EndpointRecord)
    ensures SetReg(SetReg(d, n, a), n, b) == SetReg(d, n, b) && SetReg(d, n, a).reg[n] == a
  {
    assert d.reg[n := a][n := b] == d.reg[n := b];
  }

  class Handle {
    const epr: array<bv16>
    const pma: array<byte>
    const ram: array<byte>
    const inEp: array<Ep>
    const outEp: array<Ep>
    const setupBuf: nat
    var usbAddress: byte
    var daddr: byte
    var log: seq<Event>

    predicate WellFormed() {
      && epr.Length == 8 && inEp.Length == 8 && outEp.Length == 8
      && pma != ram && inEp != outEp && (epr as object) !in {pma as object, ram, inEp, outEp}
    }

    ghost function Repr(): set<object> {
      {this, epr, pma, ram, inEp, outEp}
    }

    /** The whole state. */
    function State(): (d: Device)
      requires WellFormed()
      reads Repr()
    {
      DeviceState(DecodeAll(epr[..]), pma[..], ram[..], inEp[..], outEp[..], usbAddress, daddr, setupBuf, log)
    }

    /** The state at power-up. */
    constructor (pmaSize: nat, ramSize: nat, setup: nat)
      ensures WellFormed() && fresh(Repr())
      ensures State().log == [] && State().usbAddress == 0 && State().setupBuf == setup
      ensures |State().pma| == pmaSize && |State().ram| == ramSize
      ensures forall n: EpNum :: !Pending(State(), n) && State().inEp[n] == State().outEp[n] == RESET_EP
    {
      epr := new bv16[8](_ => 0);
      pma := new byte[pmaSize];
      ram := new byte[ramSize];
      inEp := new Ep[8](_ => RESET_EP);
      outEp := new Ep[8](_ => RESET_EP);
      setupBuf := setup;
      usbAddress := 0;
      daddr := 0;
      log := [];
    }

    // ---------- single accesses ----------

    function ReadRegister(n: EpNum): (r: bv16)
      requires WellFormed()
      reads Repr()
      ensures Decode(r) == State().reg[n]
    {
      epr[n]
    }

    /** One macro: read the register, build the word, write it. */
    method Issue(n: EpNum, m: Macro)
      requires WellFormed()
      modifies epr
      ensures State() == SetReg(old(State()), n, Result(m, old(State()).reg[n]))
    {
      hide Decode, RegisterWrite, Word, Result;
      var r := epr[n];
      MacroRefinement(m, r);
      epr[n] := RegisterWrite(r, Word(m, r));
      assert pma[..] == old(pma[..]) && ram[..] == old(ram[..]) && inEp[..] == old(inEp[..]) && outEp[..] == old(outEp[..]);
      assert State().reg == old(State()).reg[n := Result(m, Decode(r))];
    }

    function Endpoint(n: EpNum, isIn: bool): (ep: Ep)
      requires WellFormed()
      reads Repr()
      ensures ep == GetEp(State(), n, isIn)
    {
      if isIn then inEp[n] else outEp[n]
    }

    method PutEndpoint(n: EpNum, isIn: bool, ep: Ep)
      requires WellFormed()
      modifies inEp, outEp
      ensures State() == SetEp(old(State()), n, isIn, ep)
    {
      if isIn {
        inEp[n] := ep;
        assert inEp[..] == old(inEp[..])[n := ep] && outEp[..] == old(outEp[..]);
      } else {
        outEp[n] := ep;
        assert outEp[..] == old(outEp[..])[n := ep] && inEp[..] == old(inEp[..]);
      }
      assert pma[..] == old(pma[..]) && ram[..] == old(ram[..]) && epr[..] == old(epr[..]);
    }

    method PutDescriptor(at: nat, v: half)
      requires WellFormed()
      modifies pma
      ensures State() == Describe(old(State()), at, v)
    {
      StoreHalf(pma, at, v);
      assert epr[..] == old(epr[..]) && ram[..] == old(ram[..]) && inEp[..] == old(inEp[..]) && outEp[..] == old(outEp[..]);
    }

    function RxCountRead(n: EpNum): (count: nat)
      requires WellFormed()
      reads Repr()
      ensures count == RxCount(State(), n)
    {
      CountField(GetHalf(pma[..], RxCountAt(n)))
    }

    function TxCountRead(n: EpNum): (count: nat)
      requires WellFormed()
      reads Repr()
      ensures count == TxCount(State(), n)
    {
      CountField(GetHalf(pma[..], TxCountAt(n)))
    }

    method CopyToPma(usrBuf: nat, addr: nat, nBytes: nat)
      requires WellFormed()
      modifies pma
      ensures State() == WriteBuffer(old(State()), usrBuf, addr, nBytes)
    {
      WritePMA(pma, ram, usrBuf, addr, nBytes);
      assert epr[..] == old(epr[..]) && ram[..] == old(ram[..]) && inEp[..] == old(inEp[..]) && outEp[..] == old(outEp[..]);
    }

    method CopyFromPma(usrBuf: nat, addr: nat, nBytes: nat)
      requires WellFormed()
      modifies ram
      ensures State() == ReadBuffer(old(State()), usrBuf, addr, nBytes)
    {
      ReadPMA(pma, ram, usrBuf, addr, nBytes);
      assert epr[..] == old(epr[..]) && pma[..] == old(pma[..]) && inEp[..] == old(inEp[..]) && outEp[..] == old(outEp[..]);
    }

    method Log(e: Event)
      requires WellFormed()
      modifies this
      ensures State() == Note(old(State()), e)
    {
      log := log + [e];
    }

    /** PCD_CLEAR_RX_DTOG: toggles only a toggle that is set. */
    method ClearRxDtog(n: EpNum)
      requires WellFormed()
      modifies epr
      ensures State() == SetReg(old(State()), n, old(State()).reg[n].(dtogRx := false))
    {
      hide State;
      if RxToggle(n) {
        Issue(n, ToggleRx);
      } else {
        SetRegSame(State(), n, State().reg[n].(dtogRx := false));
      }
    }

    method ClearTxDtog(n: EpNum)
      requires WellFormed()
      modifies epr
      ensures State() == SetReg(old(State()), n, old(State()).reg[n].(dtogTx := false))
    {
      hide State;
      if TxToggle(n) {
        Issue(n, ToggleTx);
      } else {
        SetRegSame(State(), n, State().reg[n].(dtogTx := false));
      }
    }

    // ---------- driver interface ----------

    method SetEndpointType(n: EpNum, t: byte)
      requires WellFormed()
      modifies epr
      ensures State() == SetReg(old(State()), n, old(State()).reg[n].(epType := TypeOfCode(t, old(State()).reg[n].epType)))
    {
      hide State;
      Updates();
      if t == 0 {
        Issue(n, SetType(Control));
      } else if t == 2 {
        Issue(n, SetType(Bulk));
      } else if t == 3 {
        Issue(n, SetType(Interrupt));
      } else if t == 1 {
        Issue(n, SetType(Isochronous));
      }
    }

    method ClearToggles(n: EpNum)
      requires WellFormed()
      modifies epr
      ensures State() == SetReg(old(State()), n, old(State()).reg[n].(dtogRx := false, dtogTx := false))
    {
      hide State, SetReg;
      ghost var d := State();
      ghost var e1 := d.reg[n].(dtogRx := false);
      Twice(d, n, e1, e1.(dtogTx := false));
      ClearRxDtog(n);
      ClearTxDtog(n);
    }

    /** Two macros one after the other on the same register. */
    method IssueTwo(n: EpNum, a: Macro, b: Macro)
      requires WellFormed()
      modifies epr
      ensures State() == SetReg(old(State()), n, Result(b, Result(a, old(State()).reg[n])))
    {
      hide State, SetReg, Result;
      ghost var d := State();
      ghost var e1 := Result(a, d.reg[n]);
      Twice(d, n, e1, Result(b, e1));
      Issue(n, a);
      Issue(n, b);
    }

    /** The toggles and statuses of a double-buffered endpoint, when it is opened and when closed. */
    method ResetDouble(n: EpNum, isIn: bool, rx: Stat)
      requires WellFormed()
      modifies epr
      ensures State() == SetReg(old(State()), n, old(State()).reg[n].(dtogRx := isIn, dtogTx := !isIn,
        statRx := if isIn then Disabled else rx, statTx := Disabled))
    {
      hide State, SetReg;
      ghost var d := State();
      ghost var e2 := d.reg[n].(dtogRx := false, dtogTx := false);
      ghost var e3 := if isIn then e2.(dtogRx := true) else e2.(dtogTx := true);
      Twice(d, n, e2, e3);
      Twice(d, n, e3, e3.(statRx := if isIn then Disabled else rx, statTx := Disabled));
      ClearToggles(n);
      if !isIn {
        Issue(n, ToggleTx);
        IssueTwo(n, SetRxStatus(rx), SetTxStatus(Disabled));
      } else {
        Issue(n, ToggleRx);
        IssueTwo(n, SetTxStatus(Disabled), SetRxStatus(Disabled));
      }
    }

    method OpenSingle(n: EpNum, isIn: bool, ep: Ep)
      requires WellFormed() && ep == GetEp(State(), n, isIn) && !ep.doubleBuffer
      modifies epr, pma
      ensures State() == DescribeEp(SetReg(old(State()), n,
        if isIn then old(State()).reg[n].(dtogTx := false, statTx := Nak)
        else old(State()).reg[n].(dtogRx := false, statRx := Valid)), n, isIn)
    {
      hide State, PutHalf, EncodeRx;
      Updates();
      if isIn {
        PutDescriptor(TxAddressAt(n), ep.pmaAddress / 2 * 2);
        ClearTxDtog(n);
        Issue(n, SetTxStatus(Nak));
      } else {
        PutDescriptor(RxAddressAt(n), ep.pmaAddress / 2 * 2);
        PutDescriptor(RxCountAt(n), EncodeRx(ep.maxPacket));
        ClearRxDtog(n);
        Issue(n, SetRxStatus(Valid));
      }
    }

    method OpenDouble(n: EpNum, isIn: bool, ep: Ep)
      requires WellFormed() && ep == GetEp(State(), n, isIn) && ep.doubleBuffer
      modifies epr, pma
      ensures State() == DescribeEp(SetReg(old(State()), n,
        old(State()).reg[n].(kind := true, dtogRx := isIn, dtogTx := !isIn,
          statRx := if isIn then Disabled else Valid, statTx := Disabled)), n, isIn)
    {
      hide State, PutHalf, EncodeRx;
      Updates();
      Issue(n, SetKind);
      PutDescriptor(TxAddressAt(n), ep.pmaAddr0 / 2 * 2);
      PutDescriptor(RxAddressAt(n), ep.pmaAddr1 / 2 * 2);
      ResetDouble(n, isIn, Valid);
    }

    /** HAL_PCD_EP_Open. */
    method Open(n: EpNum, isIn: bool, mps: half, t: byte)
      requires WellFormed()
      modifies Repr()
      ensures State() == Pcd.Open(old(State()), n, isIn, mps, t)
    {
      hide State, DescribeEp, OrAddress, TypeOfCode;
      Updates();
      var ep := Endpoint(n, isIn);
      ep := ep.(maxPacket := mps, epType := t);
      PutEndpoint(n, isIn, ep);
      SetEndpointType(n, t);
      Issue(n, Macro.SetAddress(n));
      if !ep.doubleBuffer {
        OpenSingle(n, isIn, ep);
      } else {
        OpenDouble(n, isIn, ep);
      }
    }

    /** HAL_PCD_EP_Close. */
    method Close(n: EpNum, isIn: bool)
      requires WellFormed()
      modifies Repr()
      ensures State() == Pcd.Close(old(State()), n, isIn)
    {
      hide State;
      Updates();
      var ep := Endpoint(n, isIn);
      if !ep.doubleBuffer {
        if isIn {
          ClearTxDtog(n);
          Issue(n, SetTxStatus(Disabled));
        } else {
          ClearRxDtog(n);
          Issue(n, SetRxStatus(Disabled));
        }
      } else {
        ResetDouble(n, isIn, Disabled);
      }
    }

    /** HAL_PCD_EP_Receive. */
    method Receive(n: EpNum, buf: nat, len: nat)
      requires WellFormed()
      modifies Repr()
      ensures State() == Pcd.Receive(old(State()), n, buf, len)
    {
      hide State, PutHalf, EncodeRx;
      var ep := Endpoint(n, false);
      ep := ep.(xferBuff := buf, xferLen := len, xferCount := 0);
      var k: nat;
      if ep.xferLen > ep.maxPacket {
        k := ep.maxPacket;
        ep := ep.(xferLen := ep.xferLen - k);
      } else {
        k := ep.xferLen;
        ep := ep.(xferLen := 0);
      }
      PutEndpoint(n, false, ep);
      PutDescriptor(RxCountAt(n), EncodeRx(k));
      Issue(n, SetRxStatus(Valid));
    }

    /** HAL_PCD_EP_Transmit. */
    method Transmit(n: EpNum, buf: nat, len: nat)
      requires WellFormed()
      modifies Repr()
      ensures State() == Pcd.Transmit(old(State()), n, buf, len)
    {
      hide State, PutHalf, CopyHalves;
      var ep := Endpoint(n, true);
      ep := ep.(xferBuff := buf, xferLen := len, xferCount := 0);
      var k: nat;
      if ep.xferLen > ep.maxPacket {
        k := ep.maxPacket;
        ep := ep.(xferLen := ep.xferLen - k);
      } else {
        k := ep.xferLen;
        ep := ep.(xferLen := 0);
      }
      PutEndpoint(n, true, ep);
      if !ep.doubleBuffer {
        CopyToPma(ep.xferBuff, ep.pmaAddress, k);
        PutDescriptor(TxCountAt(n), k % 0x1_0000);
        Issue(n, SetTxStatus(Valid));
      } else {
        PutDescriptor(RxCountAt(n), k % 0x1_0000);
        CopyToPma(ep.xferBuff, if TxToggle(n) then ep.pmaAddr1 else ep.pmaAddr0, k);
        IssueTwo(n, ToggleRx, SetTxStatus(Valid));
      }
    }

    /** HAL_PCD_EP_SetStall. */
    method SetStall(n: EpNum, isIn: bool)
      requires WellFormed()
      modifies Repr()
      ensures State() == Pcd.SetStall(old(State()), n, isIn)
    {
      hide State;
      var ep := Endpoint(n, isIn);
      PutEndpoint(n, isIn, ep.(isStall := true));
      if n == 0 {
        Issue(n, SetTxRxStatus(Stall, Stall));
      } else if isIn {
        Issue(n, SetTxStatus(Stall));
      } else {
        Issue(n, SetRxStatus(Stall));
      }
    }

    /** HAL_PCD_EP_ClrStall. */
    method ClrStall(n: EpNum, isIn: bool)
      requires WellFormed()
      modifies Repr()
      ensures State() == Pcd.ClrStall(old(State()), n, isIn)
    {
      hide State;
      Updates();
      var ep := Endpoint(n, isIn);
      PutEndpoint(n, isIn, ep.(isStall := false));
      if isIn {
        ClearTxDtog(n);
        Issue(n, SetTxStatus(Valid));
      } else {
        ClearRxDtog(n);
        Issue(n, SetRxStatus(Valid));
      }
    }

    /** HAL_PCD_SetAddress. */
    method SetDeviceAddress(a: byte)
      requires WellFormed()
      modifies this
      ensures State() == AssignAddress(old(State()), a)
    {
      if a == 0 {
        daddr := DADDR_EF;
        Log(AddressCleared);
      } else {
        usbAddress := a;
        Log(AddressRequested(a));
      }
    }

    /** HAL_PCDEx_PMAConfig. */
    method ConfigurePma(n: EpNum, isIn: bool, single: bool, pmaAddress: nat)
      requires WellFormed()
      modifies Repr()
      ensures State() == PmaConfig(old(State()), n, isIn, single, pmaAddress)
    {
      hide State;
      var ep := Endpoint(n, isIn);
      if single {
        ep := ep.(doubleBuffer := false, pmaAddress := pmaAddress % 0x1_0000);
      } else {
        ep := ep.(doubleBuffer := true, pmaAddr0 := pmaAddress % 0x1_0000, pmaAddr1 := pmaAddress / 0x1_0000 % 0x1_0000);
      }
      PutEndpoint(n, isIn, ep);
    }

    // ---------- callbacks ----------

    method Perform(c: ApiCall)
      requires WellFormed()
      modifies Repr()
      ensures State() == Call(old(State()), c)
    {
      hide State, Pcd.Open, Pcd.Close, Pcd.Receive, Pcd.Transmit, Pcd.SetStall, Pcd.ClrStall;
      match c
      case OpenCall(n, isIn, mps, t) => Open(n, isIn, mps, t);
      case CloseCall(n, isIn) => Close(n, isIn);
      case ReceiveCall(n, buf, len) => Receive(n, buf, len);
      case TransmitCall(n, buf, len) => Transmit(n, buf, len);
      case SetStallCall(n, isIn) => SetStall(n, isIn);
      case ClrStallCall(n, isIn) => ClrStall(n, isIn);
      case SetAddressCall(a) => SetDeviceAddress(a);
      case PmaConfigCall(n, isIn, single, pmaAddress) => ConfigurePma(n, isIn, single, pmaAddress);
    }

    /** The application's callback: it sees the state and makes its calls one after the other. */
    method Invoke(e: Event, app: App)
      requires WellFormed()
      modifies Repr()
      ensures State() == Callback(old(State()), e, app)
    {
      hide State, Call;
      Log(e);
      var cs := app(State());
      ghost var d := State();
      var i := 0;
      while i < |cs|
        invariant 0 <= i <= |cs|
        invariant RunCalls(State(), cs[i..]) == RunCalls(d, cs)
      {
        Perform(cs[i]);
        assert cs[i..][0] == cs[i] && cs[i..][1..] == cs[i + 1..];
        i := i + 1;
      }
    }

    // ---------- interrupt handler ----------


    function RxToggle(n: EpNum): (dtog: bool)
      requires WellFormed()
      reads Repr()
      ensures dtog == State().reg[n].dtogRx
    {
      ReadRegister(n) & EP_DTOG_RX != 0
    }

    function TxToggle(n: EpNum): (dtog: bool)
      requires WellFormed()
      reads Repr()
      ensures dtog == State().reg[n].dtogTx
    {
      ReadRegister(n) & EP_DTOG_TX != 0
    }

    method ServeControlIn(app: App)
      requires WellFormed()
      modifies Repr()
      ensures State() == ServeEp0In(old(State()), app)
    {
      hide State, TxCount, Callback;
      Issue(0, ClearCtrTx);
      var count := TxCountRead(0);
      var ep := Endpoint(0, true);
      PutEndpoint(0, true, ep.(xferCount := count, xferBuff := ep.xferBuff + count));
      Invoke(DataIn(0), app);
      ApplyPendingAddress();
    }

    method ApplyPendingAddress()
      requires WellFormed()
      modifies this
      ensures State() == ApplyAddress(old(State()))
    {
      if usbAddress > 0 && inEp[0].xferLen == 0 {
        daddr := WithBit7(usbAddress);
        Log(AddressApplied(usbAddress));
        usbAddress := 0;
      }
    }

    method ServeControlSetup(app: App)
      requires WellFormed()
      modifies Repr()
      ensures State() == ServeEp0Setup(old(State()), app)
    {
      hide State, AcceptSetup, Callback;
      AcceptControlSetup();
      Invoke(SetupStage, app);
    }

    method AcceptControlSetup()
      requires WellFormed()
      modifies Repr()
      ensures State() == AcceptSetup(old(State()))
    {
      hide State, RxCount, CopyHalves;
      var count := RxCountRead(0);
      var ep := Endpoint(0, false);
      PutEndpoint(0, false, ep.(xferCount := count));
      var at := SetupBuffer();
      CopyFromPma(at, ep.pmaAddress, count);
      Issue(0, ClearCtrRx);
    }

    function SetupBuffer(): (at: nat)
      requires WellFormed()
      reads Repr()
      ensures at == State().setupBuf
    {
      setupBuf
    }

    method ServeControlOut(app: App)
      requires WellFormed()
      modifies Repr()
      ensures State() == ServeEp0Out(old(State()), app)
    {
      hide State, Callback, AcceptEp0Out, PutHalf, EncodeRx;
      AcceptControlOut();
      Invoke(DataOut(0), app);
      var ep := Endpoint(0, false);
      PutDescriptor(RxCountAt(0), EncodeRx(ep.maxPacket));
      Issue(0, SetRxStatus(Valid));
    }

    method AcceptControlOut()
      requires WellFormed()
      modifies Repr()
      ensures State() == AcceptEp0Out(old(State()))
    {
      hide State, RxCount, CopyHalves;
      Issue(0, ClearCtrRx);
      var count := RxCountRead(0);
      var ep := Endpoint(0, false);
      ep := ep.(xferCount := count);
      if count != 0 {
        CopyFromPma(ep.xferBuff, ep.pmaAddress, count);
        ep := ep.(xferBuff := ep.xferBuff + count);
      }
      PutEndpoint(0, false, ep);
    }

    /** The packet of a double-buffered endpoint, from the buffer DTOG_RX says was filled. */
    method TakeDouble(n: EpNum, ep: Ep) returns (count: nat)
      requires WellFormed() && ep == State().outEp[n] && ep.doubleBuffer
      modifies Repr()
      ensures State() == TakePacket(old(State()), n) && count == PacketSize(old(State()), n)
    {
      hide State, RxCount, TxCount, CopyHalves;
      var first := RxToggle(n);
      if first {
        count := TxCountRead(n);
        if count != 0 {
          CopyFromPma(ep.xferBuff, ep.pmaAddr0, count);
        }
      } else {
        count := RxCountRead(n);
        if count != 0 {
          CopyFromPma(ep.xferBuff, ep.pmaAddr1, count);
        }
      }
      Issue(n, ToggleTx);
    }

    method AcceptReceived(n: EpNum) returns (count: nat)
      requires WellFormed()
      modifies Repr()
      ensures State() == AcceptOut(old(State()), n) && count == PacketSize(AckRx(old(State()), n), n)
    {
      hide State, RxCount, TxCount, CopyHalves;
      Issue(n, ClearCtrRx);
      var ep := Endpoint(n, false);
      if !ep.doubleBuffer {
        count := RxCountRead(n);
        if count != 0 {
          CopyFromPma(ep.xferBuff, ep.pmaAddress, count);
        }
      } else {
        count := TakeDouble(n, ep);
      }
      PutEndpoint(n, false, ep.(xferCount := ep.xferCount + count, xferBuff := ep.xferBuff + count));
    }

    method ServeReceived(n: EpNum, app: App)
      requires WellFormed()
      modifies Repr()
      ensures State() == ServeOut(old(State()), n, app)
    {
      hide State, AcceptOut, PacketSize, Callback, Pcd.Receive;
      var count := AcceptReceived(n);
      var ep := Endpoint(n, false);
      if ep.xferLen == 0 || count < ep.maxPacket {
        Invoke(DataOut(n), app);
      } else {
        Log(ContinueOut(n));
        Receive(n, ep.xferBuff, ep.xferLen);
      }
    }

    method RecopyDouble(n: EpNum, ep: Ep)
      requires WellFormed() && ep == State().inEp[n] && ep.doubleBuffer
      modifies Repr()
      ensures State() == RecopyPacket(old(State()), n)
    {
      hide State, RxCount, TxCount, CopyHalves;
      var first := TxToggle(n);
      if first {
        var count := TxCountRead(n);
        if count != 0 {
          CopyToPma(ep.xferBuff, ep.pmaAddr0, count);
        }
      } else {
        var count := RxCountRead(n);
        if count != 0 {
          CopyToPma(ep.xferBuff, ep.pmaAddr1, count);
        }
      }
      Issue(n, ToggleRx);
    }

    method FinishSent(n: EpNum)
      requires WellFormed()
      modifies Repr()
      ensures State() == FinishIn(old(State()), n)
    {
      hide State, RxCount, TxCount, CopyHalves;
      Issue(n, ClearCtrTx);
      var ep := Endpoint(n, true);
      if !ep.doubleBuffer {
        var count := TxCountRead(n);
        if count != 0 {
          CopyToPma(ep.xferBuff, ep.pmaAddress, count);
        }
      } else {
        RecopyDouble(n, ep);
      }
      var count := TxCountRead(n);
      PutEndpoint(n, true, ep.(xferCount := count, xferBuff := ep.xferBuff + count));
    }

    method ServeSent(n: EpNum, app: App)
      requires WellFormed()
      modifies Repr()
      ensures State() == ServeIn(old(State()), n, app)
    {
      hide State, FinishIn, Callback, Pcd.Transmit;
      FinishSent(n);
      var ep := Endpoint(n, true);
      if ep.xferLen == 0 {
        Invoke(DataIn(n), app);
      } else {
        Log(ContinueIn(n));
        Transmit(n, ep.xferBuff, ep.xferLen);
      }
    }

    /** One turn of the loop for the endpoint hardware names. */
    method ServeNamed(n: EpNum, app: App)
      requires WellFormed() && Pending(State(), n)
      modifies Repr()
      ensures State() == ServeEndpoint(old(State()), n, app)
    {
      hide State, ServeIn, ServeOut, ServeEp0In, ServeEp0Out, ServeEp0Setup, RxStatOf, TxStatOf, TypeOf;
      var epVal := ReadRegister(n);
      var ctrRx, ctrTx, setup := epVal & EP_CTR_RX != 0, epVal & EP_CTR_TX != 0, epVal & EP_SETUP != 0;
      if n == 0 {
        if !ctrRx {
          ServeControlIn(app);
        } else if setup {
          ServeControlSetup(app);
        } else {
          ServeControlOut(app);
        }
      } else {
        if ctrRx {
          ServeReceived(n, app);
        }
        if ctrTx {
          ServeSent(n, app);
        }
      }
    }

    /** What the interrupt status register tells the handler: whether a completion is pending, and for
        which endpoint.  Hardware may name any endpoint with a pending flag. */
    method ReadIstr() returns (ctr: bool, epId: EpNum)
      requires WellFormed()
      ensures ctr ==> Pending(State(), epId)
      ensures !ctr ==> forall n: EpNum :: !Pending(State(), n)
    {
      hide State;
      if n: EpNum :| Pending(State(), n) {
        ctr, epId := true, n;
      } else {
        ctr, epId := false, 0;
      }
    }

    /** PCD_EP_ISR_Handler: serves endpoints until none has a completion pending.  `turns` are the
        endpoints hardware named; the loop ends because every turn clears a flag and no callback sets
        one, and every completion pending on entry has been dispatched exactly once. */
    method EpIsrHandler(app: App) returns (ghost turns: seq<EpNum>)
      requires WellFormed()
      modifies Repr()
      ensures LegalTurns(old(State()), turns, app) && State() == RunTurns(old(State()), turns, app)
      ensures forall n: EpNum :: !Pending(State(), n)
      ensures forall n: EpNum ::
        && RxServed(State().log, n) == RxServed(old(State()).log, n) + One(old(State()).reg[n].ctrRx)
        && TxServed(State().log, n) == TxServed(old(State()).log, n) + One(old(State()).reg[n].ctrTx)
    {
      hide State, ServeEndpoint, Pending, RxServed, TxServed;
      turns := [];
      var ctr, epId := ReadIstr();
      while ctr
        invariant ctr ==> Pending(State(), epId)
        invariant !ctr ==> forall n: EpNum :: !Pending(State(), n)
        invariant LegalTurns(old(State()), turns, app) && State() == RunTurns(old(State()), turns, app)
        decreases FlagCount(State().reg)
      {
        ServeEndpointProgress(State(), epId, app);
        TurnsAppend(old(State()), turns, epId, app);
        ServeNamed(epId, app);
        turns := turns + [epId];
        ctr, epId := ReadIstr();
      }
      forall n: EpNum
        ensures RxServed(State().log, n) == RxServed(old(State()).log, n) + One(old(State()).reg[n].ctrRx)
        ensures TxServed(State().log, n) == TxServed(old(State()).log, n) + One(old(State()).reg[n].ctrTx)
      {
        DrainServesExactlyOnce(old(State()), turns, app, n);
      }
    }
  }

  lemma {:induction false} TurnsAppend(d: Device, ns: seq<EpNum>, n: EpNum, app: App)
    requires LegalTurns(d, ns, app) && Pending(RunTurns(d, ns, app), n)
    ensures LegalTurns(d, ns + [n], app)
    ensures RunTurns(d, ns + [n], app) == ServeEndpoint(RunTurns(d, ns, app), n, app)
    decreases ns
  {
    hide ServeEndpoint;
    if ns == [] {
      assert [n][1..] == [];
    } else {
      assert (ns + [n])[1..] == ns[1..] + [n];
      TurnsAppend(ServeEndpoint(d, ns[0], app), ns[1..], n, app);
    }
  }
}
