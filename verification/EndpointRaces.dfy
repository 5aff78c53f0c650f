/** What the endpoint-register macros do to a register that hardware may change under them. */
module EndpointRaces {
  import opened EndpointRegister

  /** With a quiet register a macro performs the update it is named after, and for the address macro
      exactly when the old address has no bit outside the new one. */
  lemma MacroRefinement(m: Macro, r: bv16)
    ensures Decode(RegisterWrite(r, Word(m, r))) == Result(m, Decode(r))
    ensures Decode(RegisterWrite(r, Word(m, r))) == Effect(m, Decode(r)) <==> Applicable(m, Decode(r))
  {
    hide Decode, RegisterWrite, Word;
    RaceRefinement(m, r, r);
  }

  // ---------- hardware events ----------

  /** A transfer completing on one direction of the endpoint.  A SETUP also stops the other direction and
      starts both at DATA1 (USB 2.0 section 8.5.3). */
  datatype HwEvent = RxDone(isSetup: bool) | TxDone

  function Hw(e: EndpointRecord, ev: HwEvent): EndpointRecord {
    match ev
    case RxDone(isSetup) =>
      if isSetup then e.(ctrRx := true, dtogRx := true, dtogTx := true, statRx := Nak, statTx := Nak, setup := true)
      else e.(ctrRx := true, dtogRx := !e.dtogRx, statRx := Nak, setup := false)
    case TxDone => e.(ctrTx := true, dtogTx := !e.dtogTx, statTx := Nak)
  }

  function HwAll(e: EndpointRecord, evs: seq<HwEvent>): EndpointRecord
    decreases evs
  {
    if evs == [] then e else HwAll(Hw(e, evs[0]), evs[1..])
  }

  /** One macro execution: any events may come before its read, and any between read and write. */
  datatype Race = Race(before: seq<HwEvent>, m: Macro, during: seq<HwEvent>)

  function AtRead(r: bv16, x: Race): bv16 {
    Encode(HwAll(Decode(r), x.before))
  }

  function AtWrite(r: bv16, x: Race): bv16 {
    Encode(HwAll(Decode(AtRead(r, x)), x.during))
  }

  function Execute(r: bv16, x: Race): bv16 {
    RegisterWrite(AtWrite(r, x), Word(x.m, AtRead(r, x)))
  }

  function ExecuteAll(r: bv16, xs: seq<Race>): bv16
    decreases xs
  {
    if xs == [] then r else ExecuteAll(Execute(r, xs[0]), xs[1..])
  }

  /** Macros that write one to both CTR flags. */
  predicate WritesFlagsAsOnes(m: Macro) {
    !m.SetType? && !m.ClearCtrRx? && !m.ClearCtrTx?
  }

  predicate RxAmong(evs: seq<HwEvent>) {
    exists ev :: ev in evs && ev.RxDone?
  }

  predicate TxAmong(evs: seq<HwEvent>) {
    exists ev :: ev in evs && ev.TxDone?
  }

  predicate RaisesRx(x: Race) {
    RxAmong(x.before) || RxAmong(x.during)
  }

  predicate RaisesTx(x: Race) {
    TxAmong(x.before) || TxAmong(x.during)
  }

  /** When a macro execution leaves a receive flag clear although it was set or raised. */
  predicate DropsRx(r: bv16, x: Race) {
    x.m.ClearCtrRx? || (!WritesFlagsAsOnes(x.m) && !Decode(AtRead(r, x)).ctrRx)
  }

  predicate DropsTx(r: bv16, x: Race) {
    x.m.ClearCtrTx? || (!WritesFlagsAsOnes(x.m) && !Decode(AtRead(r, x)).ctrTx)
  }

  /** The flags after one execution, for every register value, macro and timing of events: a flag is
      set iff it was set or raised, unless the macro writes back the clear value it read. */
  lemma FlagsAfterExecute(r: bv16, x: Race)
    ensures var e, f := Decode(r), Decode(Execute(r, x));
      && (f.ctrRx <==> (e.ctrRx || RaisesRx(x)) && !DropsRx(r, x))
      && (f.ctrTx <==> (e.ctrTx || RaisesTx(x)) && !DropsTx(r, x))
  {
    hide Decode, Encode, RegisterWrite, Word, RaceEffect, HwAll, WritesFlagsAsOnes, RxAmong, TxAmong;
    var e1 := HwAll(Decode(r), x.before);
    var e2 := HwAll(e1, x.during);
    FlagsOfHw(Decode(r), x.before);
    FlagsOfHw(e1, x.during);
    DecodeOfEncode(e1);
    DecodeOfEncode(e2);
    RaceRefinement(x.m, AtRead(r, x), AtWrite(r, x));
    FlagsOfRaceEffect(x.m, e1, e2);
  }

  lemma {:induction false} FlagsOfHw(e: EndpointRecord, evs: seq<HwEvent>)
    ensures HwAll(e, evs).ctrRx <==> e.ctrRx || RxAmong(evs)
    ensures HwAll(e, evs).ctrTx <==> e.ctrTx || TxAmong(evs)
    decreases evs
  {
    if evs != [] {
      FlagsOfHw(Hw(e, evs[0]), evs[1..]);
      assert forall ev :: ev in evs <==> ev == evs[0] || ev in evs[1..];
      assert evs[0] in evs;
    }
  }

  lemma FlagsOfRaceEffect(m: Macro, e: EndpointRecord, c: EndpointRecord)
    ensures var f := RaceEffect(m, e, c);
      && (f.ctrRx <==> c.ctrRx && !(m.ClearCtrRx? || (!WritesFlagsAsOnes(m) && !e.ctrRx)))
      && (f.ctrTx <==> c.ctrTx && !(m.ClearCtrTx? || (!WritesFlagsAsOnes(m) && !e.ctrTx)))
  {
    hide Toggled, OrAddress;
  }

  /** No transfer event is lost: over every sequence of flag-preserving macros and every timing of
      hardware events, the flags at the end are those set at the start or raised on the way. */
  lemma {:induction false} NoLostEvent(r: bv16, xs: seq<Race>)
    requires forall x :: x in xs ==> WritesFlagsAsOnes(x.m)
    ensures Decode(ExecuteAll(r, xs)).ctrRx <==> Decode(r).ctrRx || exists x :: x in xs && RaisesRx(x)
    ensures Decode(ExecuteAll(r, xs)).ctrTx <==> Decode(r).ctrTx || exists x :: x in xs && RaisesTx(x)
    decreases xs
  {
    if xs != [] {
      hide Execute, RaisesRx, RaisesTx;
      FlagsAfterExecute(r, xs[0]);
      NoLostEvent(Execute(r, xs[0]), xs[1..]);
      assert forall x :: x in xs <==> x == xs[0] || x in xs[1..];
    }
  }

  /** The flag-preserving condition cannot be dropped: clearing CTR_RX loses a transmit completion
      that arrives between its read and its write, and so does setting the type. */
  lemma ClearCtrLosesTheOtherFlag()
    ensures var x := Race([], ClearCtrRx, [TxDone]);
      var r := Encode(EndpointRecord(true, false, Nak, false, Bulk, false, false, false, Valid, 1));
      RaisesTx(x) && !Decode(Execute(r, x)).ctrTx
  {
    var e := EndpointRecord(true, false, Nak, false, Bulk, false, false, false, Valid, 1);
    var x := Race([], ClearCtrRx, [TxDone]);
    DecodeOfEncode(e);
    assert TxDone in x.during;
    FlagsAfterExecute(Encode(e), x);
  }

  /** A status macro reaches the status it was given exactly when hardware left that direction's
      status alone between its read and its write. */
  lemma StatusUnderRace(s: Stat, r: bv16, c: bv16)
    ensures Decode(RegisterWrite(c, Word(SetTxStatus(s), r))).statTx == s <==> Decode(c).statTx == Decode(r).statTx
    ensures Decode(RegisterWrite(c, Word(SetRxStatus(s), r))).statRx == s <==> Decode(c).statRx == Decode(r).statRx
  {
    hide Decode, RegisterWrite, Word;
    RaceRefinement(SetTxStatus(s), r, c);
    RaceRefinement(SetRxStatus(s), r, c);
  }

  /** Outside the fields it names, a macro leaves the toggles, statuses and SETUP bit that hardware
      set in the meantime. */
  lemma OtherFieldsUnderRace(m: Macro, r: bv16, c: bv16)
    ensures KeepsUnnamedFields(m, Decode(c), Decode(RegisterWrite(c, Word(m, r))))
  {
    hide Decode, RegisterWrite, Word, RaceEffect, KeepsUnnamedFields;
    RaceRefinement(m, r, c);
    UnnamedFieldsOfRaceEffect(m, Decode(r), Decode(c));
  }

  predicate KeepsUnnamedFields(m: Macro, e: EndpointRecord, f: EndpointRecord) {
    && f.setup == e.setup
    && (!m.ToggleRx? ==> f.dtogRx == e.dtogRx)
    && (!m.ToggleTx? ==> f.dtogTx == e.dtogTx)
    && (!m.SetRxStatus? && !m.SetTxRxStatus? ==> f.statRx == e.statRx)
    && (!m.SetTxStatus? && !m.SetTxRxStatus? ==> f.statTx == e.statTx)
  }

  lemma UnnamedFieldsOfRaceEffect(m: Macro, e: EndpointRecord, c: EndpointRecord)
    ensures KeepsUnnamedFields(m, c, RaceEffect(m, e, c))
  {
    hide Toggled, OrAddress;
  }
}
