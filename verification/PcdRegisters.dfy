/** What each driver call does to its endpoint register: the macros it issues, in order, against the
    update of named fields it is meant to be. */
module PcdRegisters {
  import opened EndpointRegister
  import opened EndpointRaces
  import opened PacketMemory

  datatype ApiCall =
    | OpenCall(n: EpNum, isIn: bool, mps: half, t: byte)
    | CloseCall(n: EpNum, isIn: bool)
    | ReceiveCall(n: EpNum, buf: nat, len: nat)
    | TransmitCall(n: EpNum, buf: nat, len: nat)
    | SetStallCall(n: EpNum, isIn: bool)
    | ClrStallCall(n: EpNum, isIn: bool)
    | SetAddressCall(a: byte)
    | PmaConfigCall(n: EpNum, isIn: bool, single: bool, pmaAddress: nat)

  // ---------- intended field updates ----------

  function TypeOfCode(t: byte, otherwise: EpType): EpType {
    if t == 0 then Control else if t == 1 then Isochronous else if t == 2 then Bulk
    else if t == 3 then Interrupt else otherwise
  }

  function OpenUpdate(n: EpNum, isIn: bool, t: byte, e: EndpointRecord, dbl: bool): EndpointRecord {
    var e1 := e.(epType := TypeOfCode(t, e.epType), ea := OrAddress(e.ea, n));
    if dbl then
      if isIn then e1.(kind := true, dtogRx := true, dtogTx := false, statRx := Disabled, statTx := Disabled)
      else e1.(kind := true, dtogRx := false, dtogTx := true, statRx := Valid, statTx := Disabled)
    else
      if isIn then e1.(dtogTx := false, statTx := Nak)
      else e1.(dtogRx := false, statRx := Valid)
  }

  function CloseUpdate(isIn: bool, e: EndpointRecord, dbl: bool): EndpointRecord {
    if dbl then e.(dtogRx := isIn, dtogTx := !isIn, statRx := Disabled, statTx := Disabled)
    else if isIn then e.(dtogTx := false, statTx := Disabled)
    else e.(dtogRx := false, statRx := Disabled)
  }

  function ReceiveUpdate(e: EndpointRecord): EndpointRecord {
    e.(statRx := Valid)
  }

  function TransmitUpdate(e: EndpointRecord, dbl: bool): EndpointRecord {
    if dbl then e.(dtogRx := !e.dtogRx, statTx := Valid) else e.(statTx := Valid)
  }

  function SetStallUpdate(n: EpNum, isIn: bool, e: EndpointRecord): EndpointRecord {
    if n == 0 then e.(statRx := Stall, statTx := Stall)
    else if isIn then e.(statTx := Stall)
    else e.(statRx := Stall)
  }

  /** USB 2.0 section 9.4.5: after clearing a halt the data toggle starts over with DATA0. */
  function ClrStallUpdate(isIn: bool, e: EndpointRecord): EndpointRecord {
    if isIn then e.(dtogTx := false, statTx := Valid) else e.(dtogRx := false, statRx := Valid)
  }

  /** The fields a call changes in its endpoint's register; `dbl` says whether the endpoint structure
      it works on is double buffered. */
  function RegisterUpdate(c: ApiCall, e: EndpointRecord, dbl: bool): EndpointRecord {
    match c
    case OpenCall(n, isIn, _, t) => OpenUpdate(n, isIn, t, e, dbl)
    case CloseCall(_, isIn) => CloseUpdate(isIn, e, dbl)
    case ReceiveCall(_, _, _) => ReceiveUpdate(e)
    case TransmitCall(_, _, _) => TransmitUpdate(e, dbl)
    case SetStallCall(n, isIn) => SetStallUpdate(n, isIn, e)
    case ClrStallCall(_, isIn) => ClrStallUpdate(isIn, e)
    case SetAddressCall(_) => e
    case PmaConfigCall(_, _, _, _) => e
  }

  // ---------- issued macros ----------

  function ToggleIf(b: bool, m: Macro): seq<Macro> {
    if b then [m] else []
  }

  function TypeMacro(t: byte): seq<Macro> {
    if t == 0 then [SetType(Control)] else if t == 1 then [SetType(Isochronous)]
    else if t == 2 then [SetType(Bulk)] else if t == 3 then [SetType(Interrupt)] else []
  }

  function ToggleReset(e: EndpointRecord): seq<Macro> {
    ToggleIf(e.dtogRx, ToggleRx) + ToggleIf(e.dtogTx, ToggleTx)
  }

  /** The macros a call issues on its endpoint register, given the toggles it finds there. */
  function Macros(c: ApiCall, e: EndpointRecord, dbl: bool): seq<Macro> {
    match c
    case OpenCall(n, isIn, _, t) =>
      TypeMacro(t) + [SetAddress(n)] +
      if dbl then
        [SetKind] + ToggleReset(e) +
        if isIn then [ToggleRx, SetTxStatus(Disabled), SetRxStatus(Disabled)]
        else [ToggleTx, SetRxStatus(Valid), SetTxStatus(Disabled)]
      else
        if isIn then ToggleIf(e.dtogTx, ToggleTx) + [SetTxStatus(Nak)]
        else ToggleIf(e.dtogRx, ToggleRx) + [SetRxStatus(Valid)]
    case CloseCall(_, isIn) =>
      if dbl then
        ToggleReset(e) +
        if isIn then [ToggleRx, SetTxStatus(Disabled), SetRxStatus(Disabled)]
        else [ToggleTx, SetRxStatus(Disabled), SetTxStatus(Disabled)]
      else
        if isIn then ToggleIf(e.dtogTx, ToggleTx) + [SetTxStatus(Disabled)]
        else ToggleIf(e.dtogRx, ToggleRx) + [SetRxStatus(Disabled)]
    case ReceiveCall(_, _, _) => [SetRxStatus(Valid)]
    case TransmitCall(_, _, _) => if dbl then [ToggleRx, SetTxStatus(Valid)] else [SetTxStatus(Valid)]
    case SetStallCall(n, isIn) =>
      if n == 0 then [SetTxRxStatus(Stall, Stall)] else if isIn then [SetTxStatus(Stall)] else [SetRxStatus(Stall)]
    case ClrStallCall(_, isIn) =>
      if isIn then ToggleIf(e.dtogTx, ToggleTx) + [SetTxStatus(Valid)]
      else ToggleIf(e.dtogRx, ToggleRx) + [SetRxStatus(Valid)]
    case SetAddressCall(_) => []
    case PmaConfigCall(_, _, _, _) => []
  }

  /** The register after hardware accepted the words of a list of macros. */
  function RunMacros(r: bv16, ms: seq<Macro>): bv16
    decreases ms
  {
    if ms == [] then r else RunMacros(RegisterWrite(r, Word(ms[0], r)), ms[1..])
  }

  function RunResults(e: EndpointRecord, ms: seq<Macro>): EndpointRecord
    decreases ms
  {
    if ms == [] then e else RunResults(Result(ms[0], e), ms[1..])
  }

  lemma {:induction false} RunMacrosRefines(r: bv16, ms: seq<Macro>)
    ensures Decode(RunMacros(r, ms)) == RunResults(Decode(r), ms)
    decreases ms
  {
    hide Decode, RegisterWrite, Word, Result;
    if ms != [] {
      MacroRefinement(ms[0], r);
      RunMacrosRefines(RegisterWrite(r, Word(ms[0], r)), ms[1..]);
    }
  }

  lemma {:induction false} RunResultsAppend(e: EndpointRecord, a: seq<Macro>, b: seq<Macro>)
    ensures RunResults(e, a + b) == RunResults(RunResults(e, a), b)
    decreases a
  {
    hide Result;
    if a == [] {
      assert a + b == b;
    } else {
      assert (a + b)[1..] == a[1..] + b;
      RunResultsAppend(Result(a[0], e), a[1..], b);
    }
  }

  /** For every register value, endpoint kind and call: the words the call writes, interpreted by the
      hardware write rule, change exactly the fields the call is meant to change. */
  lemma CallRefinesUpdate(c: ApiCall, r: bv16, dbl: bool)
    ensures Decode(RunMacros(r, Macros(c, Decode(r), dbl))) == RegisterUpdate(c, Decode(r), dbl)
  {
    hide Decode, RunMacros, RunResults, Macros, RegisterUpdate;
    var e := Decode(r);
    RunMacrosRefines(r, Macros(c, e, dbl));
    MacrosDoUpdate(c, e, dbl);
  }

  lemma MacrosDoUpdate(c: ApiCall, e: EndpointRecord, dbl: bool)
    ensures RunResults(e, Macros(c, e, dbl)) == RegisterUpdate(c, e, dbl)
  {
    hide OrAddress;
    match c
    case OpenCall(n, isIn, _, t) => OpenMacros(c, e, dbl);
    case CloseCall(_, isIn) => CloseMacros(c, e, dbl);
    case TransmitCall(_, _, _) => Run2(e, ToggleRx, SetTxStatus(Valid));
    case ClrStallCall(_, isIn) =>
      if isIn { ResetTx(e, Valid); } else { ResetRx(e, Valid); }
    case _ =>
  }

  lemma Run1(e: EndpointRecord, a: Macro)
    ensures RunResults(e, [a]) == Result(a, e)
  {}

  lemma Run2(e: EndpointRecord, a: Macro, b: Macro)
    ensures RunResults(e, [a, b]) == Result(b, Result(a, e))
  {
    assert [a, b] == [a] + [b];
    RunResultsAppend(e, [a], [b]);
  }

  lemma Run3(e: EndpointRecord, a: Macro, b: Macro, c: Macro)
    ensures RunResults(e, [a, b, c]) == Result(c, Result(b, Result(a, e)))
  {
    assert [a, b, c] == [a, b] + [c];
    RunResultsAppend(e, [a, b], [c]);
    Run2(e, a, b);
  }

  lemma ResetTx(e: EndpointRecord, s: Stat)
    ensures RunResults(e, ToggleIf(e.dtogTx, ToggleTx) + [SetTxStatus(s)]) == e.(dtogTx := false, statTx := s)
  {
    RunResultsAppend(e, ToggleIf(e.dtogTx, ToggleTx), [SetTxStatus(s)]);
  }

  lemma ResetRx(e: EndpointRecord, s: Stat)
    ensures RunResults(e, ToggleIf(e.dtogRx, ToggleRx) + [SetRxStatus(s)]) == e.(dtogRx := false, statRx := s)
  {
    RunResultsAppend(e, ToggleIf(e.dtogRx, ToggleRx), [SetRxStatus(s)]);
  }

  lemma ResetBoth(e: EndpointRecord)
    ensures RunResults(e, ToggleReset(e)) == e.(dtogRx := false, dtogTx := false)
  {
    RunResultsAppend(e, ToggleIf(e.dtogRx, ToggleRx), ToggleIf(e.dtogTx, ToggleTx));
  }

  function DoubleTail(isIn: bool, rx: Stat): seq<Macro> {
    if isIn then [ToggleRx, SetTxStatus(Disabled), SetRxStatus(Disabled)]
    else [ToggleTx, SetRxStatus(rx), SetTxStatus(Disabled)]
  }

  lemma ResetDouble(e: EndpointRecord, isIn: bool, rx: Stat)
    ensures RunResults(e, ToggleReset(e) + DoubleTail(isIn, rx))
         == e.(dtogRx := isIn, dtogTx := !isIn, statRx := if isIn then Disabled else rx, statTx := Disabled)
  {
    hide RunResults, ToggleReset;
    RunResultsAppend(e, ToggleReset(e), DoubleTail(isIn, rx));
    ResetBoth(e);
    var e1 := e.(dtogRx := false, dtogTx := false);
    if isIn {
      Run3(e1, ToggleRx, SetTxStatus(Disabled), SetRxStatus(Disabled));
    } else {
      Run3(e1, ToggleTx, SetRxStatus(rx), SetTxStatus(Disabled));
    }
  }

  lemma CloseMacros(c: ApiCall, e: EndpointRecord, dbl: bool)
    requires c.CloseCall?
    ensures RunResults(e, Macros(c, e, dbl)) == RegisterUpdate(c, e, dbl)
  {
    hide RunResults;
    if dbl {
      ResetDouble(e, c.isIn, Disabled);
      assert Macros(c, e, dbl) == ToggleReset(e) + DoubleTail(c.isIn, Disabled);
    } else if c.isIn {
      ResetTx(e, Disabled);
    } else {
      ResetRx(e, Disabled);
    }
  }

  lemma OpenHead(e: EndpointRecord, n: EpNum, t: byte)
    ensures RunResults(e, TypeMacro(t) + [SetAddress(n)])
         == e.(epType := TypeOfCode(t, e.epType), ea := OrAddress(e.ea, n))
  {
    hide OrAddress;
    var e1 := e.(epType := TypeOfCode(t, e.epType));
    assert RunResults(e, TypeMacro(t)) == e1 by {
      if t < 4 { Run1(e, TypeMacro(t)[0]); }
    }
    RunResultsAppend(e, TypeMacro(t), [SetAddress(n)]);
    Run1(e1, SetAddress(n));
  }

  lemma OpenMacros(c: ApiCall, e: EndpointRecord, dbl: bool)
    requires c.OpenCall?
    ensures RunResults(e, Macros(c, e, dbl)) == RegisterUpdate(c, e, dbl)
  {
    hide OrAddress, RunResults, TypeMacro, TypeOfCode;
    var head := TypeMacro(c.t) + [SetAddress(c.n)];
    var e1 := e.(epType := TypeOfCode(c.t, e.epType), ea := OrAddress(e.ea, c.n));
    OpenHead(e, c.n, c.t);
    if dbl {
      var e2 := e1.(kind := true);
      var rest := ToggleReset(e) + DoubleTail(c.isIn, Valid);
      assert Macros(c, e, dbl) == head + ([SetKind] + rest);
      RunResultsAppend(e, head, [SetKind] + rest);
      RunResultsAppend(e1, [SetKind], rest);
      Run1(e1, SetKind);
      assert ToggleReset(e2) == ToggleReset(e);
      ResetDouble(e2, c.isIn, Valid);
    } else if c.isIn {
      assert Macros(c, e, dbl) == head + (ToggleIf(e.dtogTx, ToggleTx) + [SetTxStatus(Nak)]);
      RunResultsAppend(e, head, ToggleIf(e.dtogTx, ToggleTx) + [SetTxStatus(Nak)]);
      ResetTx(e1, Nak);
    } else {
      assert Macros(c, e, dbl) == head + (ToggleIf(e.dtogRx, ToggleRx) + [SetRxStatus(Valid)]);
      RunResultsAppend(e, head, ToggleIf(e.dtogRx, ToggleRx) + [SetRxStatus(Valid)]);
      ResetRx(e1, Valid);
    }
  }

  /** USB 2.0 section 9.4.5, on register words: whatever state the endpoint is in, clearing a stall leaves
      that direction at DATA0 and valid, and the other direction as it was. */
  lemma ClrStallStartsAtData0(n: EpNum, isIn: bool, r: bv16, dbl: bool)
    ensures var e, f := Decode(r), Decode(RunMacros(r, Macros(ClrStallCall(n, isIn), Decode(r), dbl)));
      if isIn then !f.dtogTx && f.statTx == Valid && f == e.(dtogTx := f.dtogTx, statTx := f.statTx)
      else !f.dtogRx && f.statRx == Valid && f == e.(dtogRx := f.dtogRx, statRx := f.statRx)
  {
    hide Decode, RunMacros, Macros;
    CallRefinesUpdate(ClrStallCall(n, isIn), r, dbl);
  }

  /** The register after a call, as the words written leave it. */
  function AfterCall(c: ApiCall, r: bv16, dbl: bool): EndpointRecord {
    Decode(RunMacros(r, Macros(c, Decode(r), dbl)))
  }

  predicate SameReceiveHalf(e: EndpointRecord, f: EndpointRecord) {
    f.dtogRx == e.dtogRx && f.statRx == e.statRx
  }

  predicate SameTransmitHalf(e: EndpointRecord, f: EndpointRecord) {
    f.dtogTx == e.dtogTx && f.statTx == e.statTx
  }

  /** Both flags, the setup bit, type, kind and address. */
  predicate SameCommon(e: EndpointRecord, f: EndpointRecord) {
    && f.ctrRx == e.ctrRx && f.ctrTx == e.ctrTx && f.setup == e.setup
    && f.epType == e.epType && f.kind == e.kind && f.ea == e.ea
  }

  /** An opened endpoint has the type asked for, starts at DATA0 and answers: NAK before it has something
      to send, a single-buffered receiver at once.  A double-buffered one starts with the two toggles apart,
      and only a receiver is enabled. */
  lemma OpenReadies(n: EpNum, isIn: bool, mps: half, t: byte, r: bv16, dbl: bool)
    ensures var e, f := Decode(r), AfterCall(OpenCall(n, isIn, mps, t), r, dbl);
      && (t == 0 ==> f.epType == Control) && (t == 1 ==> f.epType == Isochronous)
      && (t == 2 ==> f.epType == Bulk) && (t == 3 ==> f.epType == Interrupt) && (t > 3 ==> f.epType == e.epType)
      && f.ctrRx == e.ctrRx && f.ctrTx == e.ctrTx && f.setup == e.setup
      && (!dbl && isIn ==> f.statTx == Nak && !f.dtogTx && SameReceiveHalf(e, f))
      && (!dbl && !isIn ==> f.statRx == Valid && !f.dtogRx && SameTransmitHalf(e, f))
      && (dbl && isIn ==> f.statTx == f.statRx == Disabled && !f.dtogTx && f.dtogRx)
      && (dbl && !isIn ==> f.statTx == Disabled && f.statRx == Valid && f.dtogTx && !f.dtogRx)
  {
    hide Decode, RunMacros, Macros, OrAddress;
    CallRefinesUpdate(OpenCall(n, isIn, mps, t), r, dbl);
  }

  /** A closed one answers nothing, at DATA0; single buffered, its other direction goes on. */
  lemma CloseStops(n: EpNum, isIn: bool, r: bv16, dbl: bool)
    ensures var e, f := Decode(r), AfterCall(CloseCall(n, isIn), r, dbl);
      && SameCommon(e, f)
      && (isIn ==> f.statTx == Disabled && !f.dtogTx) && (!isIn ==> f.statRx == Disabled && !f.dtogRx)
      && (!dbl && isIn ==> SameReceiveHalf(e, f)) && (!dbl && !isIn ==> SameTransmitHalf(e, f))
      && (dbl ==> f.statTx == f.statRx == Disabled && f.dtogTx != f.dtogRx)
  {
    hide Decode, RunMacros, Macros;
    CallRefinesUpdate(CloseCall(n, isIn), r, dbl);
  }

  /** A stalled direction answers STALL, on endpoint 0 both do, and the toggles are kept. */
  lemma StallAnswers(n: EpNum, isIn: bool, r: bv16, dbl: bool)
    ensures var e, f := Decode(r), AfterCall(SetStallCall(n, isIn), r, dbl);
      && SameCommon(e, f) && f.dtogRx == e.dtogRx && f.dtogTx == e.dtogTx
      && f.statTx == (if n == 0 || isIn then Stall else e.statTx)
      && f.statRx == (if n == 0 || !isIn then Stall else e.statRx)
  {
    hide Decode, RunMacros, Macros;
    CallRefinesUpdate(SetStallCall(n, isIn), r, dbl);
  }

  /** Starting a transfer makes its direction valid and keeps the data toggle; only the buffer toggle of a
      double-buffered sender moves. */
  lemma TransferArms(n: EpNum, buf: nat, len: nat, r: bv16, dbl: bool)
    ensures var e, f := Decode(r), AfterCall(ReceiveCall(n, buf, len), r, dbl);
      SameCommon(e, f) && SameTransmitHalf(e, f) && f.statRx == Valid && f.dtogRx == e.dtogRx
    ensures var e, f := Decode(r), AfterCall(TransmitCall(n, buf, len), r, dbl);
      && SameCommon(e, f) && f.statRx == e.statRx && f.statTx == Valid && f.dtogTx == e.dtogTx
      && (f.dtogRx != e.dtogRx <==> dbl)
  {
    hide Decode, RunMacros, Macros;
    CallRefinesUpdate(ReceiveCall(n, buf, len), r, dbl);
    CallRefinesUpdate(TransmitCall(n, buf, len), r, dbl);
  }

  /** Opening an endpoint sets the double-buffer bit but never clears it: afterwards the register agrees
      with the structure except when an endpoint once opened double buffered is opened single buffered. */
  lemma KindAfterOpen(n: EpNum, isIn: bool, mps: half, t: byte, r: bv16, dbl: bool)
    ensures Decode(RunMacros(r, Macros(OpenCall(n, isIn, mps, t), Decode(r), dbl))).kind == dbl <==> dbl || !Decode(r).kind
  {
    hide Decode, RunMacros, Macros, OrAddress, TypeOfCode;
    CallRefinesUpdate(OpenCall(n, isIn, mps, t), r, dbl);
  }

  // ---------- endpoint addresses over whole runs ----------

  /** The address field holds nothing or the register's own number. */
  predicate OwnAddress(n: EpNum, e: EndpointRecord) {
    e.ea == 0 || e.ea == AddressBits(n)
  }

  datatype RegisterStep = ByCall(c: ApiCall, dbl: bool) | ByEvent(ev: HwEvent) | ByService(m: Macro)

  /** Steps of register n: calls on that endpoint, hardware events, and the interrupt handler clearing
      a flag or giving a buffer back. */
  predicate StepOf(n: EpNum, s: RegisterStep) {
    match s
    case ByCall(c, _) => !c.SetAddressCall? && c.n == n
    case ByEvent(_) => true
    case ByService(m) => m in {ClearCtrRx, ClearCtrTx, ToggleRx, ToggleTx}
  }

  function RegisterNext(r: bv16, s: RegisterStep): bv16 {
    match s
    case ByCall(c, dbl) => RunMacros(r, Macros(c, Decode(r), dbl))
    case ByEvent(ev) => Encode(Hw(Decode(r), ev))
    case ByService(m) => RegisterWrite(r, Word(m, r))
  }

  function RegisterRun(r: bv16, ss: seq<RegisterStep>): bv16
    decreases ss
  {
    if ss == [] then r else RegisterRun(RegisterNext(r, ss[0]), ss[1..])
  }

  /** Over every run of register n the address field stays in {0, n}. */
  lemma {:induction false} AddressStaysOwn(n: EpNum, r: bv16, ss: seq<RegisterStep>)
    requires OwnAddress(n, Decode(r)) && forall s :: s in ss ==> StepOf(n, s)
    ensures OwnAddress(n, Decode(RegisterRun(r, ss)))
    decreases ss
  {
    hide OwnAddress, RegisterNext, Decode;
    if ss != [] {
      StepKeepsAddress(n, r, ss[0]);
      AddressStaysOwn(n, RegisterNext(r, ss[0]), ss[1..]);
    }
  }

  /** So the OR in the address macro acts as an assignment: opening endpoint n after any run of its
      register leaves the address n. */
  lemma OpenAssignsAddress(n: EpNum, r: bv16, ss: seq<RegisterStep>, isIn: bool, mps: half, t: byte, dbl: bool)
    requires OwnAddress(n, Decode(r)) && forall s :: s in ss ==> StepOf(n, s)
    ensures var q := RegisterRun(r, ss);
      Decode(RunMacros(q, Macros(OpenCall(n, isIn, mps, t), Decode(q), dbl))).ea == AddressBits(n)
  {
    hide Decode, RunMacros, Macros, RegisterRun, OrAddress, AddressBits;
    AddressStaysOwn(n, r, ss);
    OrOfOwnAddress(n, Decode(RegisterRun(r, ss)));
    CallRefinesUpdate(OpenCall(n, isIn, mps, t), RegisterRun(r, ss), dbl);
  }

  lemma StepKeepsAddress(n: EpNum, r: bv16, s: RegisterStep)
    requires OwnAddress(n, Decode(r)) && StepOf(n, s)
    ensures OwnAddress(n, Decode(RegisterNext(r, s)))
  {
    hide OwnAddress, Decode, Encode, RunMacros, Macros, RegisterWrite, Word, RegisterUpdate, Result, Hw;
    match s
    case ByCall(c, dbl) =>
      CallRefinesUpdate(c, r, dbl);
      CallKeepsAddress(n, c, Decode(r), dbl);
    case ByEvent(ev) =>
      DecodeOfEncode(Hw(Decode(r), ev));
      EventKeepsAddress(n, ev, Decode(r));
    case ByService(m) =>
      MacroRefinement(m, r);
      ServiceKeepsAddress(n, m, Decode(r));
  }

  lemma CallKeepsAddress(n: EpNum, c: ApiCall, e: EndpointRecord, dbl: bool)
    requires OwnAddress(n, e) && !c.SetAddressCall? && c.n == n
    ensures OwnAddress(n, RegisterUpdate(c, e, dbl))
  {
    hide OrAddress, AddressBits, TypeOfCode;
    OrOfOwnAddress(n, e);
    match c
    case OpenCall(_, isIn, _, t) =>
    case CloseCall(_, isIn) =>
    case SetStallCall(_, isIn) =>
    case _ =>
  }

  lemma OrOfOwnAddress(n: EpNum, e: EndpointRecord)
    requires OwnAddress(n, e)
    ensures OrAddress(e.ea, n) == AddressBits(n)
  {}

  lemma EventKeepsAddress(n: EpNum, ev: HwEvent, e: EndpointRecord)
    requires OwnAddress(n, e)
    ensures OwnAddress(n, Hw(e, ev))
  {}

  lemma ServiceKeepsAddress(n: EpNum, m: Macro, e: EndpointRecord)
    requires OwnAddress(n, e) && m in {ClearCtrRx, ClearCtrTx, ToggleRx, ToggleTx}
    ensures OwnAddress(n, Result(m, e))
  {}
}
