/** The endpoint interrupt loop: it ends, and it serves every completed transfer exactly once. */
module PcdInterrupt {
  import opened EndpointRegister
  import opened PacketMemory
  import opened PcdRegisters
  import opened Pcd

  // ---------- what the driver interface never does ----------

  predicate SameFlagsOf(e: EndpointRecord, e': EndpointRecord) {
    e'.ctrRx == e.ctrRx && e'.ctrTx == e.ctrTx && e'.setup == e.setup
  }

  /** Flags and SETUP bit of every endpoint are the same. */
  predicate SameFlags(r: seq<EndpointRecord>, r': seq<EndpointRecord>) {
    |r| == |r'| && forall n :: 0 <= n < |r| ==> SameFlagsOf(r[n], r'[n])
  }

  predicate AddressEvent(e: Event) {
    e.AddressRequested? || e.AddressCleared? || e.AddressApplied?
  }

  /** The log grew by address events only. */
  predicate GrewByAddressEvents(log: seq<Event>, log': seq<Event>) {
    log <= log' && forall i :: |log| <= i < |log'| ==> AddressEvent(log'[i])
  }

  lemma UpdateKeepsFlags(c: ApiCall, e: EndpointRecord, dbl: bool)
    ensures SameFlagsOf(e, RegisterUpdate(c, e, dbl))
  {
    hide OrAddress, TypeOfCode;
    match c
    case OpenCall(n, isIn, mps, t) =>
    case CloseCall(n, isIn) =>
    case SetStallCall(n, isIn) =>
    case ClrStallCall(n, isIn) =>
    case _ =>
  }

  /** Every call acts on its endpoint's register by the update it is named after and on no other. */
  lemma CallRegisters(d: Device, c: ApiCall)
    ensures c.SetAddressCall? || c.PmaConfigCall? ==> Call(d, c).reg == d.reg
    ensures c.OpenCall? || c.CloseCall? || c.SetStallCall? || c.ClrStallCall? ==>
      Call(d, c).reg == d.reg[c.n := RegisterUpdate(c, d.reg[c.n], GetEp(d, c.n, c.isIn).doubleBuffer)]
    ensures c.ReceiveCall? ==> Call(d, c).reg == d.reg[c.n := RegisterUpdate(c, d.reg[c.n], d.outEp[c.n].doubleBuffer)]
    ensures c.TransmitCall? ==> Call(d, c).reg == d.reg[c.n := RegisterUpdate(c, d.reg[c.n], d.inEp[c.n].doubleBuffer)]
  {
    hide CopyHalves, EncodeRx, PutHalf, OpenUpdate, CloseUpdate, TransmitUpdate, SetStallUpdate, ClrStallUpdate;
  }

  lemma CallKeepsFlags(d: Device, c: ApiCall)
    ensures SameFlags(d.reg, Call(d, c).reg)
  {
    hide Call, RegisterUpdate;
    CallRegisters(d, c);
    if !c.SetAddressCall? && !c.PmaConfigCall? {
      forall dbl ensures SameFlagsOf(d.reg[c.n], RegisterUpdate(c, d.reg[c.n], dbl)) { UpdateKeepsFlags(c, d.reg[c.n], dbl); }
    }
  }

  lemma CallLog(d: Device, c: ApiCall)
    ensures GrewByAddressEvents(d.log, Call(d, c).log)
  {
    hide CopyHalves, EncodeRx, PutHalf, OpenUpdate, CloseUpdate, TransmitUpdate, SetStallUpdate, ClrStallUpdate;
  }

  lemma {:induction false} RunCallsKeepFlags(d: Device, cs: seq<ApiCall>)
    ensures SameFlags(d.reg, RunCalls(d, cs).reg)
    ensures GrewByAddressEvents(d.log, RunCalls(d, cs).log)
    decreases cs
  {
    hide Call;
    if cs != [] {
      CallKeepsFlags(d, cs[0]);
      CallLog(d, cs[0]);
      RunCallsKeepFlags(Call(d, cs[0]), cs[1..]);
    }
  }

  // ---------- counting dispatches ----------

  function Times(log: seq<Event>, e: Event): nat {
    multiset(log)[e]
  }

  /** How often a receive completion of endpoint n was dispatched. */
  function RxServed(log: seq<Event>, n: EpNum): nat {
    Times(log, DataOut(n)) + Times(log, ContinueOut(n)) + if n == 0 then Times(log, SetupStage) else 0
  }

  /** How often a transmit completion of endpoint n was dispatched. */
  function TxServed(log: seq<Event>, n: EpNum): nat {
    Times(log, DataIn(n)) + Times(log, ContinueIn(n))
  }

  function One(b: bool): nat {
    if b then 1 else 0
  }

  /** Dispatched plus still pending is the same before and after: a flag goes down exactly when its
      completion is dispatched. */
  predicate Conserved(d: Device, d': Device) {
    && (forall m: EpNum :: ConservedAt(d, d', m))
    && SetupServed(d'.log) + One(SetupPending(d')) == SetupServed(d.log) + One(SetupPending(d))
  }

  predicate ConservedAt(d: Device, d': Device, m: EpNum) {
    && RxServed(d'.log, m) + One(d'.reg[m].ctrRx) == RxServed(d.log, m) + One(d.reg[m].ctrRx)
    && TxServed(d'.log, m) + One(d'.reg[m].ctrTx) == TxServed(d.log, m) + One(d.reg[m].ctrTx)
  }

  /** A completion on endpoint 0 that carries a SETUP packet. */
  predicate SetupPending(d: Device) {
    d.reg[0].ctrRx && d.reg[0].setup
  }

  function SetupServed(log: seq<Event>): nat {
    Times(log, SetupStage)
  }

  lemma AddressEventsDoNotCount(log: seq<Event>, log': seq<Event>, e: Event)
    requires GrewByAddressEvents(log, log') && !AddressEvent(e)
    ensures Times(log', e) == Times(log, e)
  {
    var k := log'[|log|..];
    assert log' == log + k;
    assert e !in k;
  }

  lemma NoteCounts(log: seq<Event>, e: Event, x: Event)
    ensures Times(log + [e], x) == Times(log, x) + One(x == e)
  {}

  /** A callback adds one dispatch of its own event and changes no flag, whatever calls it makes. */
  lemma CallbackEffect(d: Device, e: Event, app: App)
    ensures var d' := Callback(d, e, app);
      && SameFlags(d.reg, d'.reg)
      && d.log <= d'.log
      && forall x :: !AddressEvent(x) ==> Times(d'.log, x) == Times(d.log, x) + One(x == e)
  {
    hide Call;
    var d1 := Note(d, e);
    var d' := Callback(d, e, app);
    RunCallsKeepFlags(d1, app(d1));
    forall x | !AddressEvent(x) ensures Times(d'.log, x) == Times(d.log, x) + One(x == e) {
      AddressEventsDoNotCount(d1.log, d'.log, x);
      NoteCounts(d.log, e, x);
    }
  }

  // ---------- one service ----------

  /** A service cleared the flags it was called for, left all others, and dispatched once for each. */
  predicate Served(d: Device, d': Device, n: EpNum, rx: bool, tx: bool) {
    && Conserved(d, d')
    && d.log <= d'.log
    && |d'.reg| == |d.reg|
    && (forall m: EpNum :: m != n ==> SameFlagsOf(d.reg[m], d'.reg[m]))
    && d'.reg[n].ctrRx == (d.reg[n].ctrRx && !rx)
    && d'.reg[n].ctrTx == (d.reg[n].ctrTx && !tx)
  }

  lemma CountedAt(d: Device, d': Device, n: EpNum, isIn: bool, e: Event, m: EpNum)
    requires if isIn then e == DataIn(n) || e == ContinueIn(n)
             else e == DataOut(n) || e == ContinueOut(n) || (n == 0 && e == SetupStage)
    requires if isIn then d.reg[n].ctrTx else d.reg[n].ctrRx
    requires SameFlagsOf((if isIn then AckTx(d, n) else AckRx(d, n)).reg[m], d'.reg[m])
    requires forall x :: !AddressEvent(x) ==> Times(d'.log, x) == Times(d.log, x) + One(x == e)
    ensures ConservedAt(d, d', m)
  {
    hide Times;
  }

  /** The pattern every service has: one flag cleared, one event noted, then steps that touch neither
      flags nor dispatch counts. */
  lemma ServedByOne(d: Device, d': Device, n: EpNum, isIn: bool, e: Event)
    requires if isIn then e == DataIn(n) || e == ContinueIn(n)
             else e == DataOut(n) || e == ContinueOut(n) || (n == 0 && e == SetupStage)
    requires if isIn then d.reg[n].ctrTx else d.reg[n].ctrRx
    requires e == SetupStage <==> !isIn && n == 0 && d.reg[0].setup
    requires SameFlags((if isIn then AckTx(d, n) else AckRx(d, n)).reg, d'.reg)
    requires d.log <= d'.log
    requires forall x :: !AddressEvent(x) ==> Times(d'.log, x) == Times(d.log, x) + One(x == e)
    ensures Served(d, d', n, !isIn, isIn)
  {
    hide Times, ConservedAt;
    forall m: EpNum ensures ConservedAt(d, d', m) {
      assert SameFlagsOf((if isIn then AckTx(d, n) else AckRx(d, n)).reg[m], d'.reg[m]);
      CountedAt(d, d', n, isIn, e, m);
    }
    assert SameFlagsOf((if isIn then AckTx(d, n) else AckRx(d, n)).reg[0], d'.reg[0]);
  }

  lemma SameFlagsTrans(a: seq<EndpointRecord>, b: seq<EndpointRecord>, c: seq<EndpointRecord>)
    requires SameFlags(a, b) && SameFlags(b, c)
    ensures SameFlags(a, c)
  {}

  lemma TakePacketEffect(d: Device, n: EpNum)
    ensures var d' := TakePacket(d, n);
      SameFlags(d.reg, d'.reg) && d'.log == d.log && d'.outEp == d.outEp && d'.inEp == d.inEp && d'.pma == d.pma
  {
    hide CopyHalves, GetHalf;
  }

  lemma RecopyPacketEffect(d: Device, n: EpNum)
    ensures var d' := RecopyPacket(d, n);
      SameFlags(d.reg, d'.reg) && d'.log == d.log && d'.outEp == d.outEp && d'.inEp == d.inEp && d'.ram == d.ram
  {
    hide CopyHalves, GetHalf;
  }

  /** What follows the acknowledgement in a service: a callback, or the next packet of a transfer. */
  lemma NextPacketEffect(d: Device, n: EpNum, isIn: bool, e: Event, buf: nat, len: nat)
    ensures var d' := if isIn then Transmit(Note(d, e), n, buf, len) else Receive(Note(d, e), n, buf, len);
      && SameFlags(d.reg, d'.reg) && d.log <= d'.log
      && forall x :: !AddressEvent(x) ==> Times(d'.log, x) == Times(d.log, x) + One(x == e)
  {
    hide Transmit, Receive, Times;
    var d1 := Note(d, e);
    var c := if isIn then TransmitCall(n, buf, len) else ReceiveCall(n, buf, len);
    var d' := Call(d1, c);
    CallKeepsFlags(d1, c);
    CallLog(d1, c);
    forall x | !AddressEvent(x) ensures Times(d'.log, x) == Times(d.log, x) + One(x == e) {
      AddressEventsDoNotCount(d1.log, d'.log, x);
      NoteCounts(d.log, e, x);
    }
  }

  lemma AcceptOutEffect(d: Device, n: EpNum)
    ensures var d' := AcceptOut(d, n);
      SameFlags(AckRx(d, n).reg, d'.reg) && d'.log == d.log && d'.inEp == d.inEp && d'.pma == d.pma
  {
    hide SameFlags, TakePacket, PacketSize;
    TakePacketEffect(AckRx(d, n), n);
  }

  lemma FinishInEffect(d: Device, n: EpNum)
    ensures var d' := FinishIn(d, n);
      SameFlags(AckTx(d, n).reg, d'.reg) && d'.log == d.log && d'.outEp == d.outEp && d'.ram == d.ram
  {
    hide SameFlags, RecopyPacket, TxCount;
    RecopyPacketEffect(AckTx(d, n), n);
  }

  lemma ServeOutOnce(d: Device, n: EpNum, app: App)
    requires d.reg[n].ctrRx && n != 0
    ensures Served(d, ServeOut(d, n, app), n, true, false)
  {
    hide Callback, Times, Receive, SameFlags, AcceptOut, PacketSize, Served;
    var d3 := AcceptOut(d, n);
    AcceptOutEffect(d, n);
    var ep := d3.outEp[n];
    var e := if ep.xferLen == 0 || PacketSize(AckRx(d, n), n) < ep.maxPacket then DataOut(n) else ContinueOut(n);
    var d' := ServeOut(d, n, app);
    CallbackEffect(d3, e, app);
    NextPacketEffect(d3, n, false, e, ep.xferBuff, ep.xferLen);
    SameFlagsTrans(AckRx(d, n).reg, d3.reg, d'.reg);
    ServedByOne(d, d', n, false, e);
  }

  lemma ServeInOnce(d: Device, n: EpNum, app: App)
    requires d.reg[n].ctrTx
    ensures Served(d, ServeIn(d, n, app), n, false, true)
  {
    hide Callback, Times, Transmit, SameFlags, FinishIn, Served;
    var d3 := FinishIn(d, n);
    FinishInEffect(d, n);
    var ep := d3.inEp[n];
    var e := if ep.xferLen == 0 then DataIn(n) else ContinueIn(n);
    var d' := ServeIn(d, n, app);
    CallbackEffect(d3, e, app);
    NextPacketEffect(d3, n, true, e, ep.xferBuff, ep.xferLen);
    SameFlagsTrans(AckTx(d, n).reg, d3.reg, d'.reg);
    ServedByOne(d, d', n, true, e);
  }

  lemma ServeEp0InOnce(d: Device, app: App)
    requires d.reg[0].ctrTx
    ensures Served(d, ServeEp0In(d, app), 0, false, true)
  {
    hide Callback, Times, SameFlags, TxCount, Served;
    var d2 := FinishEp0In(d);
    var d3 := Callback(d2, DataIn(0), app);
    CallbackEffect(d2, DataIn(0), app);
    var d' := ApplyAddress(d3);
    forall x | !AddressEvent(x) ensures Times(d'.log, x) == Times(d.log, x) + One(x == DataIn(0)) {
      NoteCounts(d3.log, AddressApplied(d3.usbAddress), x);
    }
    ServedByOne(d, d', 0, true, DataIn(0));
  }

  lemma ServeEp0SetupOnce(d: Device, app: App)
    requires SetupPending(d)
    ensures Served(d, ServeEp0Setup(d, app), 0, true, false)
  {
    hide Callback, Times, SameFlags, RxCount, Served, CopyHalves;
    CallbackEffect(AcceptSetup(d), SetupStage, app);
    ServedByOne(d, ServeEp0Setup(d, app), 0, false, SetupStage);
  }

  lemma ServeEp0OutOnce(d: Device, app: App)
    requires d.reg[0].ctrRx && !d.reg[0].setup
    ensures Served(d, ServeEp0Out(d, app), 0, true, false)
  {
    hide Callback, Times, RxCount, Served, CopyHalves, EncodeRx, PutHalf;
    var d2 := AcceptEp0Out(d);
    CallbackEffect(d2, DataOut(0), app);
    var d3 := Callback(d2, DataOut(0), app);
    var d' := ServeEp0Out(d, app);
    assert SameFlags(d3.reg, d'.reg);
    SameFlagsTrans(AckRx(d, 0).reg, d3.reg, d'.reg);
    ServedByOne(d, d', 0, false, DataOut(0));
  }

  // ---------- one turn of the loop, and the loop ----------

  lemma ServedTrans(d: Device, d1: Device, d2: Device, n: EpNum)
    requires Served(d, d1, n, true, false) && Served(d1, d2, n, false, true)
    ensures Served(d, d2, n, true, true)
  {
    hide Conserved;
    ConservedTrans(d, d1, d2);
  }

  /** One turn clears the flags of the named endpoint it looks at (endpoint 0: one direction, receive
      first; any other: both) and dispatches each exactly once. */
  lemma ServeEndpointOnce(d: Device, n: EpNum, app: App)
    requires Pending(d, n)
    ensures Served(d, ServeEndpoint(d, n, app), n, d.reg[n].ctrRx, d.reg[n].ctrTx && (n != 0 || !d.reg[n].ctrRx))
  {
    hide ServeOut, ServeIn, ServeEp0In, ServeEp0Out, ServeEp0Setup, RxServed, TxServed, SetupServed;
    if n == 0 {
      if !d.reg[0].ctrRx { ServeEp0InOnce(d, app); }
      else if d.reg[0].setup { ServeEp0SetupOnce(d, app); }
      else { ServeEp0OutOnce(d, app); }
    } else {
      if d.reg[n].ctrRx {
        ServeOutOnce(d, n, app);
        var d1 := ServeOut(d, n, app);
        if d.reg[n].ctrTx {
          ServeInOnce(d1, n, app);
          ServedTrans(d, d1, ServeIn(d1, n, app), n);
        }
      } else {
        ServeInOnce(d, n, app);
      }
    }
  }

  function Flags(e: EndpointRecord): nat {
    One(e.ctrRx) + One(e.ctrTx)
  }

  /** Number of completion flags set over all endpoints. */
  function FlagCount(r: seq<EndpointRecord>): nat
    decreases r
  {
    if r == [] then 0 else Flags(r[0]) + FlagCount(r[1..])
  }

  lemma {:induction false} FlagCountDrops(r: seq<EndpointRecord>, r': seq<EndpointRecord>, n: nat)
    requires |r'| == |r| && n < |r|
    requires forall m :: 0 <= m < |r| && m != n ==> SameFlagsOf(r[m], r'[m])
    requires Flags(r'[n]) < Flags(r[n])
    ensures FlagCount(r') < FlagCount(r)
    decreases r
  {
    if n == 0 {
      FlagCountSame(r[1..], r'[1..]);
    } else {
      FlagCountDrops(r[1..], r'[1..], n - 1);
    }
  }

  lemma {:induction false} FlagCountSame(r: seq<EndpointRecord>, r': seq<EndpointRecord>)
    requires SameFlags(r, r')
    ensures FlagCount(r') == FlagCount(r)
    decreases r
  {
    if r != [] {
      FlagCountSame(r[1..], r'[1..]);
    }
  }

  lemma ServeEndpointProgress(d: Device, n: EpNum, app: App)
    requires Pending(d, n)
    ensures FlagCount(ServeEndpoint(d, n, app).reg) < FlagCount(d.reg)
  {
    hide ServeEndpoint, Conserved;
    ServeEndpointOnce(d, n, app);
    FlagCountDrops(d.reg, ServeEndpoint(d, n, app).reg, n);
  }

  /** The endpoints hardware names, turn by turn: each has a flag set at its turn. */
  predicate LegalTurns(d: Device, ns: seq<EpNum>, app: App)
    decreases ns
  {
    ns == [] || (Pending(d, ns[0]) && LegalTurns(ServeEndpoint(d, ns[0], app), ns[1..], app))
  }

  function RunTurns(d: Device, ns: seq<EpNum>, app: App): Device
    decreases ns
  {
    if ns == [] then d else RunTurns(ServeEndpoint(d, ns[0], app), ns[1..], app)
  }

  /** The loop ends: however hardware picks endpoints and whatever the callbacks call, there are no
      more turns than flags were set on entry. */
  lemma {:induction false} LoopEnds(d: Device, ns: seq<EpNum>, app: App)
    requires LegalTurns(d, ns, app)
    ensures |ns| + FlagCount(RunTurns(d, ns, app).reg) <= FlagCount(d.reg)
    decreases ns
  {
    hide ServeEndpoint, FlagCount;
    if ns != [] {
      ServeEndpointProgress(d, ns[0], app);
      LoopEnds(ServeEndpoint(d, ns[0], app), ns[1..], app);
    }
  }

  lemma ConservedTrans(d: Device, d1: Device, d2: Device)
    requires Conserved(d, d1) && Conserved(d1, d2)
    ensures Conserved(d, d2)
  {
    hide RxServed, TxServed, SetupServed;
    forall m: EpNum ensures ConservedAt(d, d2, m) {
      assert ConservedAt(d, d1, m) && ConservedAt(d1, d2, m);
    }
  }

  lemma {:induction false} TurnsConserve(d: Device, ns: seq<EpNum>, app: App)
    requires LegalTurns(d, ns, app)
    ensures Conserved(d, RunTurns(d, ns, app))
    decreases ns
  {
    hide ServeEndpoint, Conserved;
    if ns == [] {
      ConservedRefl(d);
    } else {
      ServeEndpointOnce(d, ns[0], app);
      var d1 := ServeEndpoint(d, ns[0], app);
      TurnsConserve(d1, ns[1..], app);
      ConservedTrans(d, d1, RunTurns(d, ns, app));
    }
  }

  lemma ConservedRefl(d: Device)
    ensures Conserved(d, d)
  {}

  /** Exactly once: when the loop has ended with nothing pending, every completion pending on entry has
      been dispatched once and no other dispatch happened, for every order in which hardware names the
      endpoints and every behaviour of the callbacks. */
  lemma DrainServesExactlyOnce(d: Device, ns: seq<EpNum>, app: App, m: EpNum)
    requires LegalTurns(d, ns, app)
    requires forall k: EpNum :: !Pending(RunTurns(d, ns, app), k)
    ensures var d' := RunTurns(d, ns, app);
      && RxServed(d'.log, m) == RxServed(d.log, m) + One(d.reg[m].ctrRx)
      && TxServed(d'.log, m) == TxServed(d.log, m) + One(d.reg[m].ctrTx)
      && SetupServed(d'.log) == SetupServed(d.log) + One(SetupPending(d))
  {
    hide RxServed, TxServed, SetupServed, RunTurns, LegalTurns;
    TurnsConserve(d, ns, app);
    var d' := RunTurns(d, ns, app);
    assert !Pending(d', m) && !Pending(d', 0);
    assert ConservedAt(d, d', m);
  }

  lemma TimesGrow(log: seq<Event>, log': seq<Event>, e: Event)
    requires log <= log'
    ensures Times(log, e) <= Times(log', e)
  {
    assert log' == log + log'[|log|..];
  }

  /** A turn that does not serve a flag dispatches nothing for it. */
  lemma UnservedNotDispatched(d: Device, n: EpNum, app: App, m: EpNum)
    requires Pending(d, n)
    ensures var d' := ServeEndpoint(d, n, app);
      && (d'.reg[m].ctrTx == d.reg[m].ctrTx ==>
            Times(d'.log, DataIn(m)) == Times(d.log, DataIn(m)) && Times(d'.log, ContinueIn(m)) == Times(d.log, ContinueIn(m)))
      && (d'.reg[m].ctrRx == d.reg[m].ctrRx ==>
            Times(d'.log, DataOut(m)) == Times(d.log, DataOut(m)) &&
            Times(d'.log, ContinueOut(m)) == Times(d.log, ContinueOut(m)))
  {
    hide ServeEndpoint, Times;
    var d' := ServeEndpoint(d, n, app);
    ServeEndpointOnce(d, n, app);
    TimesGrow(d.log, d'.log, DataIn(m));
    TimesGrow(d.log, d'.log, ContinueIn(m));
    TimesGrow(d.log, d'.log, DataOut(m));
    TimesGrow(d.log, d'.log, ContinueOut(m));
    TimesGrow(d.log, d'.log, SetupStage);
    assert ConservedAt(d, d', m);
  }

  // ---------- what a turn serves first ----------

  lemma CallbackLog(d: Device, e: Event, app: App)
    ensures d.log + [e] <= Callback(d, e, app).log
  {
    RunCallsKeepFlags(Note(d, e), app(Note(d, e)));
  }

  lemma ServeOutLog(d: Device, n: EpNum, app: App)
    ensures var log := ServeOut(d, n, app).log; d.log + [DataOut(n)] <= log || d.log + [ContinueOut(n)] <= log
  {
    hide Callback, Receive, AcceptOut, PacketSize;
    var d3 := AcceptOut(d, n);
    AcceptOutEffect(d, n);
    CallbackLog(d3, DataOut(n), app);
    CallLog(Note(d3, ContinueOut(n)), ReceiveCall(n, d3.outEp[n].xferBuff, d3.outEp[n].xferLen));
  }

  lemma ServeInLog(d: Device, n: EpNum, app: App)
    ensures var log := ServeIn(d, n, app).log; d.log + [DataIn(n)] <= log || d.log + [ContinueIn(n)] <= log
  {
    hide Callback, Transmit, FinishIn;
    var d3 := FinishIn(d, n);
    FinishInEffect(d, n);
    CallbackLog(d3, DataIn(n), app);
    CallLog(Note(d3, ContinueIn(n)), TransmitCall(n, d3.inEp[n].xferBuff, d3.inEp[n].xferLen));
  }

  /** A turn serves a received packet before a sent one, and on endpoint 0 a SETUP as a SETUP. */
  lemma ReceivedComesFirst(d: Device, n: EpNum, app: App)
    requires Pending(d, n)
    ensures var log, e := ServeEndpoint(d, n, app).log, d.reg[n];
      && d.log < log && var first := log[|d.log|];
      if e.ctrRx then
        if n == 0 then first == (if e.setup then SetupStage else DataOut(0)) else first == DataOut(n) || first == ContinueOut(n)
      else first == DataIn(n) || (n != 0 && first == ContinueIn(n))
  {
    hide Callback, ServeOut, ServeIn, FinishEp0In, AcceptSetup, AcceptEp0Out;
    if n == 0 {
      Ep0Log(d);
      CallbackLog(FinishEp0In(d), DataIn(0), app);
      CallbackLog(AcceptSetup(d), SetupStage, app);
      CallbackLog(AcceptEp0Out(d), DataOut(0), app);
    } else {
      ServeOutLog(d, n, app);
      ServeInLog(d, n, app);
      ServeInLog(ServeOut(d, n, app), n, app);
    }
  }

  lemma Ep0Log(d: Device)
    ensures FinishEp0In(d).log == AcceptSetup(d).log == AcceptEp0Out(d).log == d.log
  {
    hide RxCount, TxCount, CopyHalves;
  }

  // ---------- user memory ----------

  /** Driver calls never write user memory; only the service of a received packet does. */
  lemma CallKeepsRam(d: Device, c: ApiCall)
    ensures Call(d, c).ram == d.ram
  {
    hide CopyHalves, EncodeRx, PutHalf, OpenUpdate, CloseUpdate, TransmitUpdate, SetStallUpdate, ClrStallUpdate;
  }

  lemma {:induction false} RunCallsKeepRam(d: Device, cs: seq<ApiCall>)
    ensures RunCalls(d, cs).ram == d.ram
    decreases cs
  {
    hide Call;
    if cs != [] {
      CallKeepsRam(d, cs[0]);
      RunCallsKeepRam(Call(d, cs[0]), cs[1..]);
    }
  }

  lemma ServeInKeepsRam(d: Device, n: EpNum, app: App)
    ensures ServeIn(d, n, app).ram == d.ram
  {
    hide FinishIn, Transmit, RunCalls;
    var d3 := FinishIn(d, n);
    FinishInEffect(d, n);
    RunCallsKeepRam(Note(d3, DataIn(n)), app(Note(d3, DataIn(n))));
    CallKeepsRam(Note(d3, ContinueIn(n)), TransmitCall(n, d3.inEp[n].xferBuff, d3.inEp[n].xferLen));
  }
}
