/** The device address (USB 2.0 section 9.4.6): a new address is remembered when it is requested and takes
    effect only when the status stage of the request has completed. */
module DeferredAddress {
  import opened EndpointRegister
  import opened EndpointRaces
  import opened PacketMemory
  import opened PcdRegisters
  import opened Pcd
  import opened UsbTraffic

  // ---------- what the history says ----------

  /** The remembered address, zero if none, and the address register. */
  datatype Latch = Latch(pending: byte, daddr: byte)

  function LatchOf(d: Device): Latch {
    Latch(d.usbAddress, d.daddr)
  }

  function After(l: Latch, e: Event): Latch {
    match e
    case AddressRequested(a) => l.(pending := a)
    case AddressCleared => l.(daddr := DADDR_EF)
    case AddressApplied(a) => Latch(0, WithBit7(a))
    case _ => l
  }

  function Replay(l: Latch, es: seq<Event>): Latch
    decreases es
  {
    if es == [] then l else Replay(After(l, es[0]), es[1..])
  }

  /** Only the remembered address is ever applied, and only when there is one. */
  predicate Honest(l: Latch, es: seq<Event>)
    decreases es
  {
    es == []
    || ((es[0].AddressApplied? ==> es[0].a == l.pending != 0) && Honest(After(l, es[0]), es[1..]))
  }

  lemma {:induction false} Joined(l: Latch, a: seq<Event>, b: seq<Event>)
    ensures Replay(l, a + b) == Replay(Replay(l, a), b)
    ensures Honest(l, a + b) <==> Honest(l, a) && Honest(Replay(l, a), b)
    decreases a
  {
    if a == [] {
      assert a + b == b;
    } else {
      assert (a + b)[1..] == a[1..] + b;
      Joined(After(l, a[0]), a[1..], b);
    }
  }

  /** The address an application at position i stands for: requested before, not superseded by another
      request and not applied since. */
  predicate RequestedBefore(es: seq<Event>, i: nat, a: byte)
    requires i <= |es|
  {
    exists j :: 0 <= j < i && es[j] == AddressRequested(a)
      && forall k :: j < k < i ==> !es[k].AddressRequested? && !es[k].AddressApplied?
  }

  lemma {:induction false} PendingWasRequested(l: Latch, es: seq<Event>)
    requires l.pending == 0 && Replay(l, es).pending != 0
    ensures RequestedBefore(es, |es|, Replay(l, es).pending)
    decreases es
  {
    if es != [] {
      var front, e := es[..|es| - 1], es[|es| - 1];
      assert es == front + [e];
      Joined(l, front, [e]);
      var l1 := Replay(l, front);
      assert Replay(l1, [e]) == After(l1, e) by { assert [e][1..] == []; }
      if e.AddressRequested? {
        assert es[|es| - 1] == AddressRequested(Replay(l, es).pending);
      } else {
        PendingWasRequested(l, front);
        var j :| 0 <= j < |front| && front[j] == AddressRequested(l1.pending)
          && forall k :: j < k < |front| ==> !front[k].AddressRequested? && !front[k].AddressApplied?;
        assert es[j] == AddressRequested(l1.pending);
        assert forall k :: j < k < |front| ==> es[k] == front[k];
      }
    }
  }

  // ---------- every driver and interrupt function follows the history ----------

  /** d' was reached from d with the events logged in between, and the latch changed as they say. */
  predicate Follows(d: Device, d': Device) {
    && d.log <= d'.log
    && LatchOf(d') == Replay(LatchOf(d), d'.log[|d.log|..])
    && Honest(LatchOf(d), d'.log[|d.log|..])
  }

  predicate SameLatch(d: Device, d': Device) {
    d'.log == d.log && LatchOf(d') == LatchOf(d)
  }

  lemma SameLatchFollows(d: Device, d': Device)
    requires SameLatch(d, d')
    ensures Follows(d, d')
  {}

  lemma FollowsTrans(d: Device, d1: Device, d2: Device)
    requires Follows(d, d1) && Follows(d1, d2)
    ensures Follows(d, d2)
  {
    var a, b := d1.log[|d.log|..], d2.log[|d1.log|..];
    assert d2.log[|d.log|..] == a + b;
    Joined(LatchOf(d), a, b);
  }

  lemma OneEvent(d: Device, d': Device, e: Event)
    requires d'.log == d.log + [e] && LatchOf(d') == After(LatchOf(d), e)
    requires e.AddressApplied? ==> e.a == d.usbAddress != 0
    ensures Follows(d, d')
  {
    var es := d'.log[|d.log|..];
    assert es == [e];
    assert es[1..] == [];
  }

  lemma CallFollows(d: Device, c: ApiCall)
    ensures Follows(d, Call(d, c))
    ensures !(c.SetAddressCall? && c.a != 0) ==> Call(d, c).usbAddress == d.usbAddress
  {
    hide CopyHalves, EncodeRx, PutHalf, OpenUpdate, CloseUpdate, TransmitUpdate, SetStallUpdate, ClrStallUpdate, Replay, Honest;
    if c.SetAddressCall? {
      OneEvent(d, Call(d, c), if c.a == 0 then AddressCleared else AddressRequested(c.a));
    } else {
      SameLatchFollows(d, Call(d, c));
    }
  }

  lemma {:induction false} RunCallsFollow(d: Device, cs: seq<ApiCall>)
    ensures Follows(d, RunCalls(d, cs))
    ensures (forall c :: c in cs ==> !(c.SetAddressCall? && c.a != 0)) ==> RunCalls(d, cs).usbAddress == d.usbAddress
    decreases cs
  {
    hide Call;
    if cs != [] {
      CallFollows(d, cs[0]);
      RunCallsFollow(Call(d, cs[0]), cs[1..]);
      FollowsTrans(d, Call(d, cs[0]), RunCalls(d, cs));
    }
  }

  lemma CallbackFollows(d: Device, e: Event, app: App)
    requires !e.AddressRequested? && !e.AddressCleared? && !e.AddressApplied?
    ensures Follows(d, Callback(d, e, app))
  {
    hide Call, Follows;
    var d1 := Note(d, e);
    OneEvent(d, d1, e);
    RunCallsFollow(d1, app(d1));
    FollowsTrans(d, d1, Callback(d, e, app));
  }

  lemma NextPacketFollows(d: Device, e: Event, c: ApiCall)
    requires !e.AddressRequested? && !e.AddressCleared? && !e.AddressApplied?
    ensures Follows(d, Call(Note(d, e), c))
  {
    hide Call, Follows;
    OneEvent(d, Note(d, e), e);
    CallFollows(Note(d, e), c);
    FollowsTrans(d, Note(d, e), Call(Note(d, e), c));
  }

  lemma ApplyFollows(d: Device)
    ensures Follows(d, ApplyAddress(d))
  {
    hide Follows;
    if d.usbAddress > 0 && d.inEp[0].xferLen == 0 {
      OneEvent(d, ApplyAddress(d), AddressApplied(d.usbAddress));
    } else {
      SameLatchFollows(d, ApplyAddress(d));
    }
  }

  lemma AcceptSameLatch(d: Device, n: EpNum)
    ensures SameLatch(d, AcceptOut(d, n)) && SameLatch(d, FinishIn(d, n))
    ensures SameLatch(d, FinishEp0In(d)) && SameLatch(d, AcceptSetup(d)) && SameLatch(d, AcceptEp0Out(d))
    ensures SameLatch(d, RearmEp0(d))
  {
    hide CopyHalves, GetHalf, PutHalf, EncodeRx;
  }

  lemma ServeOutFollows(d: Device, n: EpNum, app: App)
    ensures Follows(d, ServeOut(d, n, app))
  {
    hide AcceptOut, PacketSize, Callback, Follows, Receive;
    var d3 := AcceptOut(d, n);
    AcceptSameLatch(d, n);
    SameLatchFollows(d, d3);
    CallbackFollows(d3, DataOut(n), app);
    NextPacketFollows(d3, ContinueOut(n), ReceiveCall(n, d3.outEp[n].xferBuff, d3.outEp[n].xferLen));
    FollowsTrans(d, d3, ServeOut(d, n, app));
  }

  lemma ServeInFollows(d: Device, n: EpNum, app: App)
    ensures Follows(d, ServeIn(d, n, app))
  {
    hide FinishIn, Callback, Follows, Transmit;
    var d3 := FinishIn(d, n);
    AcceptSameLatch(d, n);
    SameLatchFollows(d, d3);
    CallbackFollows(d3, DataIn(n), app);
    NextPacketFollows(d3, ContinueIn(n), TransmitCall(n, d3.inEp[n].xferBuff, d3.inEp[n].xferLen));
    FollowsTrans(d, d3, ServeIn(d, n, app));
  }

  lemma ServeEp0Follows(d: Device, app: App)
    ensures Follows(d, ServeEp0(d, app))
  {
    hide FinishEp0In, AcceptSetup, AcceptEp0Out, RearmEp0, Callback, Follows, ApplyAddress, SameLatch;
    AcceptSameLatch(d, 0);
    if !d.reg[0].ctrRx {
      var d1 := FinishEp0In(d);
      SameLatchFollows(d, d1);
      var d2 := Callback(d1, DataIn(0), app);
      CallbackFollows(d1, DataIn(0), app);
      FollowsTrans(d, d1, d2);
      ApplyFollows(d2);
      FollowsTrans(d, d2, ApplyAddress(d2));
    } else if d.reg[0].setup {
      SameLatchFollows(d, AcceptSetup(d));
      CallbackFollows(AcceptSetup(d), SetupStage, app);
      FollowsTrans(d, AcceptSetup(d), ServeEp0(d, app));
    } else {
      var d1 := AcceptEp0Out(d);
      SameLatchFollows(d, d1);
      CallbackFollows(d1, DataOut(0), app);
      var d2 := Callback(d1, DataOut(0), app);
      FollowsTrans(d, d1, d2);
      AcceptSameLatch(d2, 0);
      SameLatchFollows(d2, RearmEp0(d2));
      FollowsTrans(d, d2, RearmEp0(d2));
    }
  }

  lemma ServeEndpointFollows(d: Device, n: EpNum, app: App)
    ensures Follows(d, ServeEndpoint(d, n, app))
  {
    hide ServeOut, ServeIn, ServeEp0, Follows;
    if n == 0 {
      ServeEp0Follows(d, app);
    } else {
      var d1 := if d.reg[n].ctrRx then ServeOut(d, n, app) else d;
      SameLatchFollows(d, d);
      ServeOutFollows(d, n, app);
      ServeInFollows(d1, n, app);
      FollowsTrans(d, d1, ServeIn(d1, n, app));
    }
  }

  // ---------- whole runs ----------

  /** Everything the device goes through, with bus resets: the reset callback makes its calls, then the
      interrupt handler clears the address register. */
  datatype BusStep = Traffic(s: Step) | BusReset(cs: seq<ApiCall>)

  predicate BusEnabled(d: Device, t: BusStep) {
    t.Traffic? ==> Enabled(d, t.s)
  }

  function BusNext(d: Device, t: BusStep, app: App): Device
    requires BusEnabled(d, t)
  {
    match t
    case Traffic(s) => Next(d, s, app)
    case BusReset(cs) => AssignAddress(RunCalls(d, cs), 0)
  }

  predicate BusRunEnabled(d: Device, ts: seq<BusStep>, app: App)
    decreases ts
  {
    ts == [] || (BusEnabled(d, ts[0]) && BusRunEnabled(BusNext(d, ts[0], app), ts[1..], app))
  }

  function BusRun(d: Device, ts: seq<BusStep>, app: App): Device
    requires BusRunEnabled(d, ts, app)
    decreases ts
  {
    if ts == [] then d else BusRun(BusNext(d, ts[0], app), ts[1..], app)
  }

  lemma StepFollows(d: Device, t: BusStep, app: App)
    requires BusEnabled(d, t)
    ensures Follows(d, BusNext(d, t, app))
  {
    hide Follows, Call, RunCalls, ServeEndpoint, Capacity, GetHalf, PutHalf, PutBytes, Hw;
    if t.BusReset? {
      var d1 := RunCalls(d, t.cs);
      RunCallsFollow(d, t.cs);
      OneEvent(d1, AssignAddress(d1, 0), AddressCleared);
      FollowsTrans(d, d1, AssignAddress(d1, 0));
    } else {
      match t.s
      case HostIn(n) => SameLatchFollows(d, Sent(d, n));
      case HostOut(n, data, isSetup) => SameLatchFollows(d, Received(d, n, data, isSetup));
      case DriverCall(c) => CallFollows(d, c);
      case InterruptTurn(n) => ServeEndpointFollows(d, n, app);
    }
  }

  lemma {:induction false} RunFollows(d: Device, ts: seq<BusStep>, app: App)
    requires BusRunEnabled(d, ts, app)
    ensures Follows(d, BusRun(d, ts, app))
    decreases ts
  {
    hide Follows, BusNext, BusEnabled;
    if ts == [] {
      SameLatchFollows(d, d);
    } else {
      StepFollows(d, ts[0], app);
      RunFollows(BusNext(d, ts[0], app), ts[1..], app);
      FollowsTrans(d, BusNext(d, ts[0], app), BusRun(d, ts, app));
    }
  }

  /** Over every run from a device with no address remembered: each address applied is nonzero and is
      the latest one requested, with no other request and no application in between, so no request is
      applied twice or after a later one; and what is remembered now is such a request too. */
  lemma AppliedWasRequested(d: Device, ts: seq<BusStep>, app: App, i: nat)
    requires d.usbAddress == 0 && BusRunEnabled(d, ts, app)
    ensures var d' := BusRun(d, ts, app);
      d.log <= d'.log && var es := d'.log[|d.log|..];
      && (i < |es| && es[i].AddressApplied? ==> es[i].a != 0 && RequestedBefore(es, i, es[i].a))
      && (d'.usbAddress != 0 ==> RequestedBefore(es, |es|, d'.usbAddress))
  {
    hide BusRun, BusRunEnabled, RequestedBefore;
    RunFollows(d, ts, app);
    var d' := BusRun(d, ts, app);
    var es := d'.log[|d.log|..];
    var l := LatchOf(d);
    if d'.usbAddress != 0 {
      PendingWasRequested(l, es);
    }
    if i < |es| && es[i].AddressApplied? {
      assert es == es[..i] + es[i..];
      Joined(l, es[..i], es[i..]);
      assert es[i..][0] == es[i];
      PendingWasRequested(l, es[..i]);
      RequestedInPrefix(es, i, es[i].a);
    }
  }

  lemma RequestedInPrefix(es: seq<Event>, i: nat, a: byte)
    requires i <= |es| && RequestedBefore(es[..i], |es[..i]|, a)
    ensures RequestedBefore(es, i, a)
  {
    var j :| 0 <= j < i && es[..i][j] == AddressRequested(a)
      && forall k :: j < k < i ==> !es[..i][k].AddressRequested? && !es[..i][k].AddressApplied?;
    assert es[j] == AddressRequested(a);
    assert forall k :: j < k < i ==> es[k] == es[..i][k];
  }

  // ---------- when the register changes ----------

  lemma {:induction false} NoApplication(l: Latch, es: seq<Event>)
    requires forall e :: e in es ==> !e.AddressApplied?
    ensures Replay(l, es).daddr == l.daddr || Replay(l, es).daddr == DADDR_EF
    decreases es
  {
    if es != [] {
      NoApplication(After(l, es[0]), es[1..]);
    }
  }

  predicate GrewWithoutApplication(d: Device, d': Device) {
    d.log <= d'.log && forall i :: |d.log| <= i < |d'.log| ==> !d'.log[i].AddressApplied?
  }

  lemma CallGrows(d: Device, c: ApiCall)
    ensures GrewWithoutApplication(d, Call(d, c))
  {
    hide CopyHalves, EncodeRx, PutHalf, OpenUpdate, CloseUpdate, TransmitUpdate, SetStallUpdate, ClrStallUpdate;
  }

  lemma {:induction false} RunCallsGrow(d: Device, cs: seq<ApiCall>)
    ensures GrewWithoutApplication(d, RunCalls(d, cs))
    decreases cs
  {
    hide Call;
    if cs != [] {
      CallGrows(d, cs[0]);
      RunCallsGrow(Call(d, cs[0]), cs[1..]);
    }
  }

  lemma CallbackGrows(d: Device, e: Event, app: App)
    requires !e.AddressApplied?
    ensures GrewWithoutApplication(d, Callback(d, e, app))
  {
    RunCallsGrow(Note(d, e), app(Note(d, e)));
  }

  lemma ServiceGrows(d: Device, n: EpNum, app: App)
    requires n != 0 || d.reg[0].ctrRx
    ensures GrewWithoutApplication(d, ServeEndpoint(d, n, app))
  {
    hide AcceptOut, FinishIn, AcceptSetup, AcceptEp0Out, RearmEp0, Callback, Receive, Transmit, PacketSize;
    AcceptSameLatch(d, n);
    if n == 0 {
      CallbackGrows(AcceptSetup(d), SetupStage, app);
      CallbackGrows(AcceptEp0Out(d), DataOut(0), app);
      AcceptSameLatch(Callback(AcceptEp0Out(d), DataOut(0), app), 0);
    } else {
      var d1 := if d.reg[n].ctrRx then ServeOut(d, n, app) else d;
      assert GrewWithoutApplication(d, d1) by {
        var d3 := AcceptOut(d, n);
        CallbackGrows(d3, DataOut(n), app);
        CallGrows(Note(d3, ContinueOut(n)), ReceiveCall(n, d3.outEp[n].xferBuff, d3.outEp[n].xferLen));
      }
      assert GrewWithoutApplication(d1, ServeIn(d1, n, app)) by {
        var d3 := FinishIn(d1, n);
        AcceptSameLatch(d1, n);
        CallbackGrows(d3, DataIn(n), app);
        CallGrows(Note(d3, ContinueIn(n)), TransmitCall(n, d3.inEp[n].xferBuff, d3.inEp[n].xferLen));
      }
    }
  }

  /** The state in which the interrupt handler decides about the address. */
  function AtDecision(d: Device, app: App): Device {
    Callback(FinishEp0In(d), DataIn(0), app)
  }

  /** The interrupt handler finds endpoint 0 with everything sent. */
  predicate StatusTurn(d: Device, t: BusStep, app: App) {
    && t == Traffic(InterruptTurn(0)) && d.reg[0].ctrTx && !d.reg[0].ctrRx
    && AtDecision(d, app).inEp[0].xferLen == 0
  }

  predicate StatusStageDone(d: Device, t: BusStep, app: App) {
    StatusTurn(d, t, app) && AtDecision(d, app).usbAddress != 0
  }

  /** No step but the end of a status stage can leave the address register with anything but its old
      value or "enabled at address zero", whatever calls and callbacks are made; and the end of a status
      stage puts exactly the remembered address there and forgets it. */
  lemma RegisterChangesOnlyAtStatusStage(d: Device, t: BusStep, app: App)
    requires BusEnabled(d, t)
    ensures var d' := BusNext(d, t, app);
      if StatusStageDone(d, t, app) then d'.daddr == WithBit7(AtDecision(d, app).usbAddress) && d'.usbAddress == 0
      else d'.daddr == d.daddr || d'.daddr == DADDR_EF
  {
    hide ServeEndpoint, Follows, Call, RunCalls, CanReceive, PutHalf, PutBytes, Hw, FinishEp0In, Callback;
    var d' := BusNext(d, t, app);
    StepFollows(d, t, app);
    if StatusStageDone(d, t, app) {
      TurnDecides(d, app);
    } else {
      if t.BusReset? {
        RunCallsGrow(d, t.cs);
        GrewRegister(d, d');
      } else if t.s.DriverCall? {
        CallGrows(d, t.s.c);
        GrewRegister(d, d');
      } else if t.s.InterruptTurn? {
        if t.s.n != 0 || d.reg[0].ctrRx {
          ServiceGrows(d, t.s.n, app);
          GrewRegister(d, d');
        } else {
          TurnDecides(d, app);
          AcceptSameLatch(d, 0);
          CallbackGrows(FinishEp0In(d), DataIn(0), app);
          GrewRegister(d, d');
        }
      }
    }
  }

  lemma TurnDecides(d: Device, app: App)
    requires !d.reg[0].ctrRx
    ensures ServeEndpoint(d, 0, app) == ApplyAddress(AtDecision(d, app))
  {
    hide FinishEp0In, Callback, ApplyAddress;
  }

  lemma GrewRegister(d: Device, d': Device)
    requires Follows(d, d') && GrewWithoutApplication(d, d')
    ensures d'.daddr == d.daddr || d'.daddr == DADDR_EF
  {
    NoApplication(LatchOf(d), d'.log[|d.log|..]);
  }

  // ---------- bus reset ----------

  /** Between the two nobody asked for an address and none was applied. */
  predicate NoAddressSince(d: Device, d': Device) {
    d.log <= d'.log && forall i :: |d.log| <= i < |d'.log| ==> !d'.log[i].AddressRequested? && !d'.log[i].AddressApplied?
  }

  lemma {:induction false} NoRequest(l: Latch, es: seq<Event>)
    requires forall e :: e in es ==> !e.AddressRequested? && !e.AddressApplied?
    ensures Replay(l, es).pending == l.pending
    decreases es
  {
    if es != [] {
      NoRequest(After(l, es[0]), es[1..]);
    }
  }

  lemma LatchSince(d: Device, d': Device)
    requires Follows(d, d') && NoAddressSince(d, d')
    ensures d'.usbAddress == d.usbAddress && (d'.daddr == d.daddr || d'.daddr == DADDR_EF)
  {
    var es := d'.log[|d.log|..];
    forall e | e in es ensures !e.AddressRequested? && !e.AddressApplied? {
      var i :| 0 <= i < |es| && es[i] == e;
      assert d'.log[|d.log| + i] == e;
    }
    NoRequest(LatchOf(d), es);
    NoApplication(LatchOf(d), es);
  }

  lemma DecisionFollows(d: Device, app: App)
    ensures Follows(d, AtDecision(d, app))
  {
    hide Follows, FinishEp0In, Callback, SameLatch;
    AcceptSameLatch(d, 0);
    SameLatchFollows(d, FinishEp0In(d));
    CallbackFollows(FinishEp0In(d), DataIn(0), app);
    FollowsTrans(d, FinishEp0In(d), AtDecision(d, app));
  }

  /** A bus reset returns the device to address zero but does not forget a remembered address.  Let any
      traffic follow the reset, further resets included, in which nobody asks for an address and none is
      applied: the first finished status stage then moves the device to the stale address if one was
      remembered when the reset came, and leaves it at address zero if none was. */
  lemma ResetKeepsStaleAddress(d: Device, cs: seq<ApiCall>, ts: seq<BusStep>, app: App, t: BusStep)
    requires var r := BusNext(d, BusReset(cs), app);
      && BusRunEnabled(r, ts, app) && StatusTurn(BusRun(r, ts, app), t, app)
      && NoAddressSince(d, AtDecision(BusRun(r, ts, app), app))
    ensures var r := BusNext(d, BusReset(cs), app);
      var now := AtDecision(BusRun(r, ts, app), app);
      var d' := BusNext(BusRun(r, ts, app), t, app);
      && r.daddr == now.daddr == DADDR_EF
      && if d.usbAddress != 0 then d'.log == now.log + [AddressApplied(d.usbAddress)] && d'.daddr == WithBit7(d.usbAddress)
         else d'.log == now.log && d'.daddr == DADDR_EF
  {
    hide ServeEndpoint, RunCalls, Follows, BusRunEnabled, NoAddressSince, AtDecision, BusRun;
    var r := BusNext(d, BusReset(cs), app);
    var d1 := BusRun(r, ts, app);
    var now := AtDecision(d1, app);
    StepFollows(d, BusReset(cs), app);
    RunFollows(r, ts, app);
    DecisionFollows(d1, app);
    FollowsTrans(r, d1, now);
    FollowsTrans(d, r, now);
    LatchSince(d, now);
    LaterStart(d, r, now);
    LatchSince(r, now);
    TurnDecides(d1, app);
  }

  lemma LaterStart(d: Device, r: Device, d': Device)
    requires NoAddressSince(d, d') && Follows(d, r) && Follows(r, d')
    ensures NoAddressSince(r, d')
  {}
}
