/** Transfer after transfer on a single-buffered IN endpoint: each is started while none is under way, by
    the callback that reports the one before or by a call, and the host receives all of them in order. */
module InChain {
  import opened EndpointRegister
  import opened PcdRegisters
  import opened PacketMemory
  import opened Pcd
  import opened PcdInterrupt
  import opened UsbTraffic
  import opened PmaLayout
  import opened InStream

  /** No transfer, or one under way with the packets still to be acknowledged. */
  datatype Transfer = None | Under(b: nat, user: seq<byte>, left: seq<seq<byte>>)

  function Left(cur: Transfer): seq<seq<byte>> {
    if cur.Under? then cur.left else []
  }

  ghost predicate At(d: Device, lay: Layout, k: Key, cur: Transfer) {
    && k in lay && k.isIn && k.n != 0 && Apart(lay, k) && Configured(d, lay) && d.inEp[k.n].maxPacket > 0
    && if cur.None? then Idle(d, k) else Sending(d, lay, k, cur.b, cur.user, cur.left)
  }

  /** Calls leave the endpoint alone, except that one may start a transfer while none is under way. */
  ghost predicate ChainStep(d: Device, s: Step, lay: Layout, k: Key) {
    && LegalStep(lay, s)
    && (s.DriverCall? ==>
          && !s.c.PmaConfigCall?
          && (CallSpares(s.c, k) || (Idle(d, k) && StartsTransfer(s.c, k) && s.c.buf + s.c.len < |d.ram|)))
  }

  // ---------- one step ----------

  /** The step reports a transfer and a next one was started, or is a call that starts one. */
  predicate Starts(d: Device, s: Step, app: App, k: Key)
    requires Enabled(d, s)
  {
    && CanSend(Next(d, s, app), k.n)
    && (Completions(Next(d, s, app), k) != Completions(d, k) || (s.DriverCall? && !s.c.PmaConfigCall? && !CallSpares(s.c, k)))
  }

  function After(d: Device, s: Step, app: App, k: Key, cur: Transfer): Transfer
    requires Enabled(d, s)
  {
    var d' := Next(d, s, app);
    if Starts(d, s, app, k) then Under(CurrentBuffer(d', k), CurrentUser(d', k), CurrentPackets(d', k))
    else if cur.Under? && s == HostIn(k.n) && cur.left != [] then cur.(left := cur.left[1..])
    else if Completions(d', k) != Completions(d, k) then None
    else cur
  }

  /** Nobody writes the buffer of the transfer under way. */
  predicate StableStep(d: Device, s: Step, app: App, cur: Transfer)
    requires Enabled(d, s)
  {
    cur.Under? ==> HoldsBuffer(Next(d, s, app), cur.b, cur.user)
  }

  function Sends(d: Device, s: Step, k: Key): seq<seq<byte>> {
    if s == HostIn(k.n) then [PacketToSend(d, k.n)] else []
  }

  function StartedBy(d: Device, s: Step, app: App, k: Key): seq<seq<byte>>
    requires Enabled(d, s)
  {
    if Starts(d, s, app, k) then CurrentPackets(Next(d, s, app), k) else []
  }

  lemma RestingSteps(d: Device, s: Step, app: App, lay: Layout, k: Key)
    requires At(d, lay, k, None) && LegalApp(app, lay) && AppChains(app, k) && Enabled(d, s) && ChainStep(d, s, lay, k)
    ensures At(Next(d, s, app), lay, k, After(d, s, app, k, None))
    ensures Completions(Next(d, s, app), k) == Completions(d, k) && s != HostIn(k.n)
    ensures Starts(d, s, app, k) <==> After(d, s, app, k, None).Under?
  {
    hide LegalApp, AppSpares, Configured, JustStarted, ViewOf, CallSpares, ServeEndpoint, Sending, Completions,
      CurrentPackets, CurrentUser;
    var d' := Next(d, s, app);
    if s.DriverCall? && !CallSpares(s.c, k) {
      CallKeepsConfigured(d, lay, s.c);
      StartedByCall(d, lay, k, s.c);
      OwnCallReportsNothing(d, s.c, k);
      StartedIsUnder(d', lay, k);
    } else {
      IdleStep(d, s, app, lay, k);
      StepSpared(d, s, app, lay, k);
      SameSize(d, d', lay, k);
    }
  }

  lemma OwnCallReportsNothing(d: Device, c: ApiCall, k: Key)
    requires StartsTransfer(c, k)
    ensures Completions(Call(d, c), k) == Completions(d, k)
  {
    hide Call, Times;
    CallLog(d, c);
    AddressEventsDoNotCount(d.log, Call(d, c).log, DoneEvent(k));
  }

  lemma StartedIsUnder(d: Device, lay: Layout, k: Key)
    requires Configured(d, lay) && JustStarted(d, lay, k)
    ensures At(d, lay, k, Under(CurrentBuffer(d, k), CurrentUser(d, k), CurrentPackets(d, k)))
  {
    hide Configured, ViewOf, InProgress, CurrentPackets, CurrentUser;
  }

  lemma UnderSteps(d: Device, s: Step, app: App, lay: Layout, k: Key, cur: Transfer)
    requires At(d, lay, k, cur) && cur.Under? && LegalApp(app, lay) && AppChains(app, k)
    requires Enabled(d, s) && ChainStep(d, s, lay, k) && StableStep(d, s, app, cur)
    ensures At(Next(d, s, app), lay, k, After(d, s, app, k, cur))
    ensures Sends(d, s, k) + Left(After(d, s, app, k, cur)) == Left(cur) + StartedBy(d, s, app, k)
    ensures Completions(Next(d, s, app), k) + One(After(d, s, app, k, cur).Under?)
         == Completions(d, k) + 1 + One(Starts(d, s, app, k))
    ensures if Completions(Next(d, s, app), k) == Completions(d, k)
      then After(d, s, app, k, cur).Under? && Sends(d, s, k) + Left(After(d, s, app, k, cur)) == cur.left
      else cur.left == [] && Sends(d, s, k) == [] && Completions(Next(d, s, app), k) == Completions(d, k) + 1
  {
    hide LegalApp, AppSpares, Configured, JustStarted, ViewOf, LegalStep, CallSpares, Next, Enabled, Completions, PacketToSend,
      CurrentPackets, CurrentUser, InProgress, AtMostOneTransfer, HoldsBuffer;
    var d' := Next(d, s, app);
    UnderIsNotIdle(d, lay, k, cur);
    assert CallsLeave([s], lay, k);
    AnyStep(d, s, app, lay, k, cur.b, cur.user, cur.left);
    if Completions(d', k) == Completions(d, k) {
      var left := if s == HostIn(k.n) then cur.left[1..] else cur.left;
      SendingSize(d', lay, k, cur.b, cur.user, left);
      NoStart(d, s, app, k);
    } else if CanSend(d', k.n) {
      StartedIsUnder(d', lay, k);
    }
  }

  lemma NoStart(d: Device, s: Step, app: App, k: Key)
    requires Enabled(d, s) && Completions(Next(d, s, app), k) == Completions(d, k)
    requires s.DriverCall? ==> s.c.PmaConfigCall? || CallSpares(s.c, k)
    ensures !Starts(d, s, app, k)
  {
    hide Next, Enabled, Completions, CallSpares;
  }

  lemma UnderIsNotIdle(d: Device, lay: Layout, k: Key, cur: Transfer)
    requires At(d, lay, k, cur) && cur.Under?
    ensures !Idle(d, k)
  {
    hide Configured, ViewOf, InProgress;
    SendingKey(d, lay, k, cur.b, cur.user, cur.left);
  }

  lemma SendingSize(d: Device, lay: Layout, k: Key, b: nat, user: seq<byte>, left: seq<seq<byte>>)
    requires Sending(d, lay, k, b, user, left)
    ensures Configured(d, lay) && d.inEp[k.n].maxPacket > 0
  {
    hide Configured, ViewOf;
    ConfiguredKey(d, lay, k);
    ViewFields(d, lay, k.n);
  }

  // ---------- any run ----------

  ghost predicate ChainSteps(d: Device, ss: seq<Step>, app: App, lay: Layout, k: Key)
    requires RunEnabled(d, ss, app)
    decreases ss
  {
    ss == [] || (ChainStep(d, ss[0], lay, k) && ChainSteps(Next(d, ss[0], app), ss[1..], app, lay, k))
  }

  predicate Stable(d: Device, ss: seq<Step>, app: App, k: Key, cur: Transfer)
    requires RunEnabled(d, ss, app)
    decreases ss
  {
    ss == []
    || (StableStep(d, ss[0], app, cur) && Stable(Next(d, ss[0], app), ss[1..], app, k, After(d, ss[0], app, k, cur)))
  }

  function Finally(d: Device, ss: seq<Step>, app: App, k: Key, cur: Transfer): Transfer
    requires RunEnabled(d, ss, app)
    decreases ss
  {
    if ss == [] then cur else Finally(Next(d, ss[0], app), ss[1..], app, k, After(d, ss[0], app, k, cur))
  }

  /** How many transfers the run starts, and the packets they consist of, in order. */
  function StartCount(d: Device, ss: seq<Step>, app: App, k: Key): nat
    requires RunEnabled(d, ss, app)
    decreases ss
  {
    if ss == [] then 0 else One(Starts(d, ss[0], app, k)) + StartCount(Next(d, ss[0], app), ss[1..], app, k)
  }

  function Started(d: Device, ss: seq<Step>, app: App, k: Key): seq<seq<byte>>
    requires RunEnabled(d, ss, app)
    decreases ss
  {
    if ss == [] then [] else StartedBy(d, ss[0], app, k) + Started(Next(d, ss[0], app), ss[1..], app, k)
  }

  /** Conservation over every run: what the host received and what is left of the transfer under way are the
      packets of all transfers started; and each transfer started was reported once, but for the one under
      way. */
  lemma {:induction false} ChainRun(d: Device, ss: seq<Step>, app: App, lay: Layout, k: Key, cur: Transfer)
    requires At(d, lay, k, cur) && LegalApp(app, lay) && AppChains(app, k)
    requires RunEnabled(d, ss, app) && ChainSteps(d, ss, app, lay, k) && Stable(d, ss, app, k, cur)
    ensures At(Run(d, ss, app), lay, k, Finally(d, ss, app, k, cur))
    ensures Wire(d, ss, app, k.n) + Left(Finally(d, ss, app, k, cur)) == Left(cur) + Started(d, ss, app, k)
    ensures Completions(Run(d, ss, app), k) + One(Finally(d, ss, app, k, cur).Under?)
         == Completions(d, k) + One(cur.Under?) + StartCount(d, ss, app, k)
    decreases ss
  {
    hide At, LegalApp, AppChains, ChainStep, StableStep, Starts, StartedBy, Next, Enabled, Completions, After, PacketToSend;
    if ss != [] {
      var s := ss[0];
      var d1, cur1 := Next(d, s, app), After(d, s, app, k, cur);
      ChainAnyStep(d, s, app, lay, k, cur);
      ChainRun(d1, ss[1..], app, lay, k, cur1);
      var w, st := Wire(d1, ss[1..], app, k.n), Started(d1, ss[1..], app, k);
      assert Wire(d, ss, app, k.n) == Sends(d, s, k) + w;
      Conserve(Sends(d, s, k), w, Left(Finally(d1, ss[1..], app, k, cur1)), Left(cur1), Left(cur), StartedBy(d, s, app, k), st);
    }
  }

  lemma Conserve(a: seq<seq<byte>>, w: seq<seq<byte>>, l2: seq<seq<byte>>, l1: seq<seq<byte>>, l: seq<seq<byte>>,
                 x: seq<seq<byte>>, st: seq<seq<byte>>)
    requires a + l1 == l + x && w + l2 == l1 + st
    ensures (a + w) + l2 == l + (x + st)
  {
    assert (a + w) + l2 == a + (w + l2);
    assert a + (l1 + st) == (a + l1) + st;
    assert (l + x) + st == l + (x + st);
  }

  lemma ChainAnyStep(d: Device, s: Step, app: App, lay: Layout, k: Key, cur: Transfer)
    requires At(d, lay, k, cur) && LegalApp(app, lay) && AppChains(app, k)
    requires Enabled(d, s) && ChainStep(d, s, lay, k) && StableStep(d, s, app, cur)
    ensures At(Next(d, s, app), lay, k, After(d, s, app, k, cur))
    ensures Sends(d, s, k) + Left(After(d, s, app, k, cur)) == Left(cur) + StartedBy(d, s, app, k)
    ensures Completions(Next(d, s, app), k) + One(After(d, s, app, k, cur).Under?)
         == Completions(d, k) + One(cur.Under?) + One(Starts(d, s, app, k))
  {
    hide At, LegalApp, AppChains, ChainStep, StableStep, Starts, Next, Enabled, Completions, PacketToSend, CurrentPackets,
      CurrentUser;
    if cur.Under? {
      UnderSteps(d, s, app, lay, k, cur);
    } else {
      RestingSteps(d, s, app, lay, k);
    }
  }

  /** Any number of transfers, from an endpoint with none under way: the host receives the packets of all
      buffers in the order the transfers were started, without gap or repetition; DataIn is reported once for
      each transfer, and only after all its packets; and while one is still to be reported it can go on. */
  lemma ChainDeliversBuffers(d: Device, ss: seq<Step>, app: App, lay: Layout, k: Key)
    requires At(d, lay, k, None) && LegalApp(app, lay) && AppChains(app, k)
    requires RunEnabled(d, ss, app) && ChainSteps(d, ss, app, lay, k) && Stable(d, ss, app, k, None)
    ensures var d', w, all := Run(d, ss, app), Wire(d, ss, app, k.n), Started(d, ss, app, k);
      var open := StartCount(d, ss, app, k) - (Completions(d', k) - Completions(d, k));
      && |w| <= |all| && w == all[..|w|]
      && 0 <= open <= 1
      && (open == 0 ==> w == all && Idle(d', k))
      && (open == 1 ==> d'.reg[k.n].ctrTx || (|w| < |all| && CanSend(d', k.n)))
  {
    hide LegalApp, AppChains, ChainSteps, Stable, Completions, Configured, Sending, RunEnabled, Run, Wire, Started, Idle,
      StartCount;
    ChainRun(d, ss, app, lay, k, None);
    var cur := Finally(d, ss, app, k, None);
    var w, all := Wire(d, ss, app, k.n), Started(d, ss, app, k);
    assert [] + all == all;
    assert (w + Left(cur))[..|w|] == w;
    if cur.Under? {
      SendingKey(Run(d, ss, app), lay, k, cur.b, cur.user, cur.left);
    }
  }

  // ---------- a transfer can always be finished ----------

  lemma Prepend(d: Device, s: Step, ss: seq<Step>, app: App, lay: Layout, k: Key, cur: Transfer)
    requires Enabled(d, s) && RunEnabled(Next(d, s, app), ss, app)
    ensures RunEnabled(d, [s] + ss, app) && Run(d, [s] + ss, app) == Run(Next(d, s, app), ss, app)
    ensures Wire(d, [s] + ss, app, k.n) == Sends(d, s, k) + Wire(Next(d, s, app), ss, app, k.n)
    ensures ChainStep(d, s, lay, k) && ChainSteps(Next(d, s, app), ss, app, lay, k) ==> ChainSteps(d, [s] + ss, app, lay, k)
    ensures StableStep(d, s, app, cur) && Stable(Next(d, s, app), ss, app, k, After(d, s, app, k, cur)) ==>
      Stable(d, [s] + ss, app, k, cur)
  {
    hide Next, Enabled, ChainStep, StableStep, After, PacketToSend;
    assert ([s] + ss)[1..] == ss;
  }

  /** What hardware and driver do next: send the packet that is armed, or serve the one acknowledged. */
  function NextStep(d: Device, k: Key): Step {
    if d.reg[k.n].ctrTx then InterruptTurn(k.n) else HostIn(k.n)
  }

  lemma NextStepFacts(d: Device, app: App, lay: Layout, k: Key, cur: Transfer)
    requires At(d, lay, k, cur) && cur.Under? && !d.reg[k.n].ctrRx
    ensures var s := NextStep(d, k);
      && Enabled(d, s) && ChainStep(d, s, lay, k) && StableStep(d, s, app, cur)
      && !Next(d, s, app).reg[k.n].ctrRx
      && (d.reg[k.n].ctrTx ==> !Next(d, s, app).reg[k.n].ctrTx)
      && (!d.reg[k.n].ctrTx ==> cur.left != [])
  {
    hide Configured, ViewOf, ServeEndpoint, InProgress;
    SendingKey(d, lay, k, cur.b, cur.user, cur.left);
    if d.reg[k.n].ctrTx {
      ServeEndpointOnce(d, k.n, app);
      OnlyInServed(d, k.n, app);
      ServeInKeepsRam(d, k.n, app);
    }
  }

  lemma OnlyInServed(d: Device, n: EpNum, app: App)
    requires n != 0 && !d.reg[n].ctrRx && d.reg[n].ctrTx
    ensures ServeEndpoint(d, n, app) == ServeIn(d, n, app)
  {
    hide ServeIn, ServeOut, ServeEp0;
  }

  /** No transfer gets stuck: from every state of one, with nothing received waiting on the same endpoint
      number, hardware sending what is armed and the interrupt serving it bring it to its report, with every
      packet that was left on the wire. */
  lemma {:induction false} CanReport(d: Device, app: App, lay: Layout, k: Key, cur: Transfer) returns (ss: seq<Step>)
    requires At(d, lay, k, cur) && cur.Under? && LegalApp(app, lay) && AppChains(app, k) && !d.reg[k.n].ctrRx
    ensures RunEnabled(d, ss, app) && ChainSteps(d, ss, app, lay, k) && Stable(d, ss, app, k, cur)
    ensures Completions(Run(d, ss, app), k) == Completions(d, k) + 1 && Wire(d, ss, app, k.n) == cur.left
    decreases 2 * |cur.left| + One(d.reg[k.n].ctrTx)
  {
    hide LegalApp, AppChains, ChainStep, StableStep, Next, Enabled, Completions, PacketToSend, CurrentPackets,
      CurrentUser, At, After;
    var s := NextStep(d, k);
    NextStepFacts(d, app, lay, k, cur);
    UnderSteps(d, s, app, lay, k, cur);
    var d1, cur1 := Next(d, s, app), After(d, s, app, k, cur);
    if Completions(d1, k) == Completions(d, k) {
      var rest := CanReport(d1, app, lay, k, cur1);
      ss := [s] + rest;
      Prepend(d, s, rest, app, lay, k, cur);
    } else {
      Prepend(d, s, [], app, lay, k, cur);
      ss := [s] + [];
    }
  }
}
