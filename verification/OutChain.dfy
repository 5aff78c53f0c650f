/** Transfer after transfer on a single-buffered OUT endpoint: each is started while none is under way, by
    the callback that reports the one before or by a call, and each is reported with its packets in place. */
module OutChain {
  import opened EndpointRegister
  import opened PcdRegisters
  import opened PacketMemory
  import opened Pcd
  import opened PcdInterrupt
  import opened UsbTraffic
  import opened PmaLayout
  import opened OutStream
  import opened InChain

  /** No transfer, or one under way after the packets ps. */
  datatype Reception = Resting | Armed(b: nat, len: nat, mps: nat, ps: seq<seq<byte>>)

  function PacketsOf(cur: Reception): seq<seq<byte>> {
    if cur.Armed? then cur.ps else []
  }

  ghost predicate In(d: Device, lay: Layout, k: Key, cur: Reception) {
    && k in lay && !k.isIn && k.n != 0 && Apart(lay, k) && Configured(d, lay) && d.outEp[k.n].maxPacket > 0
    && if cur.Resting? then Idle(d, k) else InReception(d, lay, k, cur.b, cur.len, cur.mps, cur.ps)
  }

  // ---------- one step ----------

  /** The buffer of the transfer the step starts, if it starts one. */
  function WantedByStep(d: Device, s: Step, app: App, k: Key): Want
    requires Enabled(d, s)
  {
    if s.DriverCall? then if StartsTransfer(s.c, k) then Buffer(s.c.buf, s.c.len) else Nothing
    else if Completions(Next(d, s, app), k) != Completions(d, k) then WantedBy(d, app, k)
    else Nothing
  }

  function Then(d: Device, s: Step, app: App, k: Key, cur: Reception): Reception
    requires Enabled(d, s)
  {
    var w := WantedByStep(d, s, app, k);
    if w.Buffer? then Armed(w.b, w.len, d.outEp[k.n].maxPacket, [])
    else if cur.Resting? || Completions(Next(d, s, app), k) != Completions(d, k) then Resting
    else cur.(ps := cur.ps + Offered([s], k.n))
  }

  /** A transfer reported done, with user memory as it was then. */
  datatype Report = Report(b: nat, len: nat, mps: nat, ps: seq<seq<byte>>, ram: seq<byte>)

  /** Its last packet is the first that ends it, and its packets lie in the buffer it was started with. */
  predicate Proper(r: Report) {
    Finished(r.ps, r.len, r.mps) && Landed(r.ram, r.b, r.ps)
  }

  function ReportedBy(d: Device, s: Step, app: App, k: Key, cur: Reception): seq<Report>
    requires Enabled(d, s)
  {
    if cur.Armed? && Completions(Next(d, s, app), k) != Completions(d, k)
    then [Report(cur.b, cur.len, cur.mps, cur.ps, Next(d, s, app).ram)]
    else []
  }

  function AllPackets(rs: seq<Report>): seq<seq<byte>>
    decreases rs
  {
    if rs == [] then [] else rs[0].ps + AllPackets(rs[1..])
  }

  /** The host keeps within packet size and length, and nobody else writes the buffer under way. */
  predicate FairStep(d: Device, s: Step, app: App, k: Key, cur: Reception)
    requires Enabled(d, s)
  {
    cur.Armed? ==>
      && Polite(s, k.n, Size(cur.ps), cur.len, cur.mps)
      && (StepSpares(d, s, k) ==> SameRange(d.ram, Next(d, s, app).ram, cur.b, cur.len))
  }

  lemma RestingStep(d: Device, s: Step, app: App, lay: Layout, k: Key)
    requires In(d, lay, k, Resting) && LegalApp(app, lay) && AppChains(app, k) && Enabled(d, s) && ChainStep(d, s, lay, k)
    ensures In(Next(d, s, app), lay, k, Then(d, s, app, k, Resting))
    ensures Completions(Next(d, s, app), k) == Completions(d, k) && Offered([s], k.n) == []
  {
    hide LegalApp, AppSpares, Configured, ViewOf, ServeEndpoint, Receiving, Completions, WantedBy, CallSpares, Capacity;
    var d' := Next(d, s, app);
    NotStarting(s, k);
    if s.DriverCall? && StartsTransfer(s.c, k) {
      CallKeepsConfigured(d, lay, s.c);
      OwnCallReportsNothing(d, s.c, k);
      OwnCall(d, lay, k, s.c);
    } else {
      IdleStep(d, s, app, lay, k);
      StepSpared(d, s, app, lay, k);
      SameOutSize(d, d', lay, k);
    }
  }

  /** A call that starts no transfer on k and is not one, spares it. */
  lemma NotStarting(s: Step, k: Key)
    ensures s.DriverCall? && CallSpares(s.c, k) ==> !StartsTransfer(s.c, k)
  {}

  lemma OwnCall(d: Device, lay: Layout, k: Key, c: ApiCall)
    requires Configured(d, lay) && k in lay && !k.isIn && k.n != 0 && Apart(lay, k)
    requires Idle(d, k) && d.outEp[k.n].maxPacket > 0 && StartsTransfer(c, k) && c.buf + c.len < |d.ram|
    ensures InReception(Call(d, c), lay, k, c.buf, c.len, d.outEp[k.n].maxPacket, []) && Call(d, c).outEp[k.n].maxPacket > 0
  {
    hide Configured, Receiving, Call;
    ArmedByCall(d, lay, k, c);
    ReceivingKey(Call(d, c), lay, k, c.buf, c.len, d.outEp[k.n].maxPacket, [], []);
  }

  lemma ArmedStep(d: Device, s: Step, app: App, lay: Layout, k: Key, cur: Reception)
    requires In(d, lay, k, cur) && cur.Armed? && LegalApp(app, lay) && AppChains(app, k)
    requires Enabled(d, s) && ChainStep(d, s, lay, k) && FairStep(d, s, app, k, cur)
    ensures In(Next(d, s, app), lay, k, Then(d, s, app, k, cur))
    ensures var d' := Next(d, s, app);
      if Completions(d', k) == Completions(d, k) then !WantedByStep(d, s, app, k).Buffer?
      else
        && Completions(d', k) == Completions(d, k) + 1 && Offered([s], k.n) == []
        && Finished(cur.ps, cur.len, cur.mps) && Landed(d'.ram, cur.b, cur.ps)
  {
    hide LegalApp, AppSpares, AtMostOneTransfer, Configured, ViewOf, LegalStep, CallSpares, Next, Enabled, Completions, Receiving,
      WantedBy, Size, SameRange, Finished, Landed, Idle, StepSpares;
    var d' := Next(d, s, app);
    ArmedIsNotIdle(d, lay, k, cur);
    NotStarting(s, k);
    assert CallsLeave([s], lay, k);
    AnyStepOut(d, s, app, lay, k, cur.b, cur.len, cur.mps, cur.ps);
    if Completions(d', k) == Completions(d, k) {
      InReceptionSize(d', lay, k, cur.b, cur.len, cur.mps, cur.ps + Offered([s], k.n));
    } else {
      OnlyTurnsReport(d, s, app, k);
      assert cur.ps + Offered([s], k.n) == cur.ps;
      InReceptionSize(d, lay, k, cur.b, cur.len, cur.mps, cur.ps);
      StartedReception(d', lay, k, WantedBy(d, app, k), cur.mps);
    }
  }

  lemma ArmedIsNotIdle(d: Device, lay: Layout, k: Key, cur: Reception)
    requires In(d, lay, k, cur) && cur.Armed?
    ensures !Idle(d, k)
  {
    hide Configured, Receiving;
    var got, pending := Split(d, k, cur.ps);
    ReceivingKey(d, lay, k, cur.b, cur.len, cur.mps, got, pending);
  }

  lemma InReceptionSize(d: Device, lay: Layout, k: Key, b: nat, len: nat, mps: nat, ps: seq<seq<byte>>)
    requires InReception(d, lay, k, b, len, mps, ps)
    ensures Configured(d, lay) && d.outEp[k.n].maxPacket == mps > 0
  {
    hide Configured, Receiving;
    var got, pending := Split(d, k, ps);
    ReceivingKey(d, lay, k, b, len, mps, got, pending);
  }

  lemma OnlyTurnsReport(d: Device, s: Step, app: App, k: Key)
    requires Enabled(d, s) && Completions(Next(d, s, app), k) != Completions(d, k)
    ensures s.InterruptTurn? && Offered([s], k.n) == []
  {
    hide Call, ServeEndpoint, Times, CanReceive;
    if s.DriverCall? {
      CallLog(d, s.c);
      AddressEventsDoNotCount(d.log, Call(d, s.c).log, DoneEvent(k));
    }
  }

  lemma StartedReception(d: Device, lay: Layout, k: Key, w: Want, mps: nat)
    requires RestingOrArmed(d, lay, k, w, mps)
    ensures w.Buffer? ==> InReception(d, lay, k, w.b, w.len, mps, [])
    ensures w.Nothing? ==> Idle(d, k)
    ensures Configured(d, lay) && d.outEp[k.n].maxPacket == mps
  {
    hide Configured, Receiving, Idle;
    if w.Buffer? {
      ReceivingKey(d, lay, k, w.b, w.len, mps, [], []);
    }
  }

  // ---------- any run ----------

  predicate Fair(d: Device, ss: seq<Step>, app: App, k: Key, cur: Reception)
    requires RunEnabled(d, ss, app)
    decreases ss
  {
    ss == []
    || (FairStep(d, ss[0], app, k, cur) && Fair(Next(d, ss[0], app), ss[1..], app, k, Then(d, ss[0], app, k, cur)))
  }

  function Lastly(d: Device, ss: seq<Step>, app: App, k: Key, cur: Reception): Reception
    requires RunEnabled(d, ss, app)
    decreases ss
  {
    if ss == [] then cur else Lastly(Next(d, ss[0], app), ss[1..], app, k, Then(d, ss[0], app, k, cur))
  }

  /** The transfers reported during the run, in order. */
  function Reports(d: Device, ss: seq<Step>, app: App, k: Key, cur: Reception): seq<Report>
    requires RunEnabled(d, ss, app)
    decreases ss
  {
    if ss == [] then []
    else ReportedBy(d, ss[0], app, k, cur) + Reports(Next(d, ss[0], app), ss[1..], app, k, Then(d, ss[0], app, k, cur))
  }

  /** How many transfers the run starts. */
  function ArmCount(d: Device, ss: seq<Step>, app: App, k: Key): nat
    requires RunEnabled(d, ss, app)
    decreases ss
  {
    if ss == [] then 0 else One(WantedByStep(d, ss[0], app, k).Buffer?) + ArmCount(Next(d, ss[0], app), ss[1..], app, k)
  }

  lemma {:induction false} AllPacketsJoin(a: seq<Report>, b: seq<Report>)
    ensures AllPackets(a + b) == AllPackets(a) + AllPackets(b)
    decreases a
  {
    if a == [] {
      assert a + b == b;
    } else {
      assert (a + b)[1..] == a[1..] + b;
      AllPacketsJoin(a[1..], b);
    }
  }

  lemma AnyChainStep(d: Device, s: Step, app: App, lay: Layout, k: Key, cur: Reception)
    requires In(d, lay, k, cur) && LegalApp(app, lay) && AppChains(app, k)
    requires Enabled(d, s) && ChainStep(d, s, lay, k) && FairStep(d, s, app, k, cur)
    ensures var cur', rs := Then(d, s, app, k, cur), ReportedBy(d, s, app, k, cur);
      && In(Next(d, s, app), lay, k, cur')
      && AllPackets(rs) + PacketsOf(cur') == PacketsOf(cur) + Offered([s], k.n)
      && Completions(Next(d, s, app), k) == Completions(d, k) + |rs|
      && |rs| + One(cur'.Armed?) == One(cur.Armed?) + One(WantedByStep(d, s, app, k).Buffer?)
      && forall r :: r in rs ==> Proper(r)
  {
    hide In, LegalApp, AppChains, ChainStep, FairStep, Next, Enabled, Completions, WantedByStep, Finished, Landed;
    if cur.Armed? {
      ArmedStep(d, s, app, lay, k, cur);
      if Completions(Next(d, s, app), k) != Completions(d, k) {
        OneReport(Report(cur.b, cur.len, cur.mps, cur.ps, Next(d, s, app).ram));
      }
    } else {
      RestingStep(d, s, app, lay, k);
    }
  }

  lemma OneReport(r: Report)
    ensures AllPackets([r]) == r.ps
  {
    assert [r][1..] == [];
  }

  /** Conservation over every run: the packets the host sent are those of the transfers reported, in order,
      and those of the one under way; each transfer started was reported once, but for the one under way; and
      each report came with the packets in place. */
  lemma {:induction false} ReceptionChain(d: Device, ss: seq<Step>, app: App, lay: Layout, k: Key, cur: Reception)
    requires In(d, lay, k, cur) && LegalApp(app, lay) && AppChains(app, k)
    requires RunEnabled(d, ss, app) && ChainSteps(d, ss, app, lay, k) && Fair(d, ss, app, k, cur)
    ensures var cur', rs := Lastly(d, ss, app, k, cur), Reports(d, ss, app, k, cur);
      && In(Run(d, ss, app), lay, k, cur')
      && AllPackets(rs) + PacketsOf(cur') == PacketsOf(cur) + Offered(ss, k.n)
      && Completions(Run(d, ss, app), k) == Completions(d, k) + |rs|
      && |rs| + One(cur'.Armed?) == One(cur.Armed?) + ArmCount(d, ss, app, k)
      && forall r :: r in rs ==> Proper(r)
    decreases ss
  {
    hide In, LegalApp, AppChains, ChainStep, FairStep, Next, Enabled, Completions, WantedByStep, Then, ReportedBy, Proper;
    if ss != [] {
      var s := ss[0];
      var d1, cur1 := Next(d, s, app), Then(d, s, app, k, cur);
      AnyChainStep(d, s, app, lay, k, cur);
      ReceptionChain(d1, ss[1..], app, lay, k, cur1);
      var rs1, rs2 := ReportedBy(d, s, app, k, cur), Reports(d1, ss[1..], app, k, cur1);
      AllPacketsJoin(rs1, rs2);
      OfferedHead(ss, k.n);
      Conserve(AllPackets(rs1), AllPackets(rs2), PacketsOf(Lastly(d1, ss[1..], app, k, cur1)), PacketsOf(cur1), PacketsOf(cur),
               Offered([s], k.n), Offered(ss[1..], k.n));
    }
  }

  /** Any number of transfers, from an endpoint with none under way: what the host sent falls into the
      transfers reported, in the order they were started, each ended by its first short or completing packet
      and reported once with its packets in the buffer it was started with, and the beginning of one more. */
  lemma ChainFillsBuffers(d: Device, ss: seq<Step>, app: App, lay: Layout, k: Key)
    requires In(d, lay, k, Resting) && LegalApp(app, lay) && AppChains(app, k)
    requires RunEnabled(d, ss, app) && ChainSteps(d, ss, app, lay, k) && Fair(d, ss, app, k, Resting)
    ensures var d', rs, sent := Run(d, ss, app), Reports(d, ss, app, k, Resting), Offered(ss, k.n);
      && Completions(d', k) == Completions(d, k) + |rs|
      && (forall r :: r in rs ==> Proper(r))
      && AllPackets(rs) <= sent
      && |rs| <= ArmCount(d, ss, app, k) <= |rs| + 1
      && (ArmCount(d, ss, app, k) == |rs| ==> sent == AllPackets(rs) && Idle(d', k))
  {
    hide LegalApp, AppChains, ChainSteps, Fair, Completions, Configured, InReception, RunEnabled, Run, Offered, Reports, Idle,
      ArmCount, Proper;
    ReceptionChain(d, ss, app, lay, k, Resting);
    var rs, sent := Reports(d, ss, app, k, Resting), Offered(ss, k.n);
    var rest := PacketsOf(Lastly(d, ss, app, k, Resting));
    assert [] + sent == sent;
    assert (AllPackets(rs) + rest)[..|AllPackets(rs)|] == AllPackets(rs);
  }

  // ---------- a transfer can always be finished ----------

  lemma Prefixed(d: Device, s: Step, ss: seq<Step>, app: App, lay: Layout, k: Key, cur: Reception)
    requires Enabled(d, s) && RunEnabled(Next(d, s, app), ss, app)
    ensures RunEnabled(d, [s] + ss, app) && Run(d, [s] + ss, app) == Run(Next(d, s, app), ss, app)
    ensures ChainStep(d, s, lay, k) && ChainSteps(Next(d, s, app), ss, app, lay, k) ==> ChainSteps(d, [s] + ss, app, lay, k)
    ensures FairStep(d, s, app, k, cur) && Fair(Next(d, s, app), ss, app, k, Then(d, s, app, k, cur)) ==>
      Fair(d, [s] + ss, app, k, cur)
  {
    hide Next, Enabled, ChainStep, FairStep, Then;
    assert ([s] + ss)[1..] == ss;
  }

  /** What is left of the buffer. */
  function Room(cur: Reception): int {
    if cur.Armed? then cur.len - Size(cur.ps) else 0
  }

  /** The host sends as much as the endpoint is armed for, or the interrupt serves what was received. */
  function NextIn(d: Device, k: Key, cur: Reception): Step
    requires cur.Armed? && Room(cur) >= 0
  {
    if d.reg[k.n].ctrRx then InterruptTurn(k.n)
    else HostOut(k.n, seq(Chunk(Room(cur), cur.mps), i => 0), false)
  }

  lemma NextInFacts(d: Device, app: App, lay: Layout, k: Key, cur: Reception)
    requires In(d, lay, k, cur) && cur.Armed?
    ensures Room(cur) >= 0 && cur.mps > 0
    ensures var s := NextIn(d, k, cur);
      && Enabled(d, s) && ChainStep(d, s, lay, k) && FairStep(d, s, app, k, cur)
      && (d.reg[k.n].ctrRx ==> !Next(d, s, app).reg[k.n].ctrRx)
      && (!d.reg[k.n].ctrRx ==> Next(d, s, app).reg[k.n].ctrRx && Completions(Next(d, s, app), k) == Completions(d, k))
  {
    hide Configured, ServeEndpoint, Landed, NoneEnds, Size, Received, Completions, Finished;
    var got, pending := Split(d, k, cur.ps);
    ReceivingKey(d, lay, k, cur.b, cur.len, cur.mps, got, pending);
    if d.reg[k.n].ctrRx {
      ServeEndpointOnce(d, k.n, app);
      PendingFits(d, lay, k, cur, got, pending[0]);
    } else {
      ArmedForChunk(d, lay, k, cur);
      ReceivedLogsNothing(d, k, NextIn(d, k, cur).data);
      ReceivedFlag(d, k.n, NextIn(d, k, cur).data);
    }
  }

  lemma ReceivedFlag(d: Device, n: EpNum, data: seq<byte>)
    requires |data| < 0x400
    ensures Received(d, n, data, false).reg[n].ctrRx
  {
    hide Filled;
  }

  lemma PendingFits(d: Device, lay: Layout, k: Key, cur: Reception, got: seq<seq<byte>>, p: seq<byte>)
    requires cur.Armed? && cur.ps == got + [p] && Receiving(d, lay, k, cur.b, cur.len, cur.mps, got, [p])
    ensures Room(cur) >= 0
  {
    hide Configured, ViewOf, Landed, NoneEnds;
    ConcatAppend(got, p);
  }

  lemma ArmedForChunk(d: Device, lay: Layout, k: Key, cur: Reception)
    requires cur.Armed? && Receiving(d, lay, k, cur.b, cur.len, cur.mps, cur.ps, [])
    ensures Room(cur) >= 0 && CanReceive(d, k.n, seq(Chunk(Room(cur), cur.mps), i => 0), false)
  {
    hide Landed, NoneEnds, Size, GetHalf, Capacity, EncodeRx, Configured;
    ConfiguredKey(d, lay, k);
  }

  /** No transfer gets stuck: from every state of one, the host sending what the endpoint is armed for and
      the interrupt serving it bring it to its report. */
  lemma {:induction false} CanFill(d: Device, app: App, lay: Layout, k: Key, cur: Reception) returns (ss: seq<Step>)
    requires In(d, lay, k, cur) && cur.Armed? && LegalApp(app, lay) && AppChains(app, k)
    ensures RunEnabled(d, ss, app) && ChainSteps(d, ss, app, lay, k) && Fair(d, ss, app, k, cur)
    ensures Completions(Run(d, ss, app), k) == Completions(d, k) + 1
    decreases 2 * Room(cur) + One(d.reg[k.n].ctrRx == (Room(cur) > 0))
  {
    hide LegalApp, AppChains, ChainStep, FairStep, Next, Enabled, Completions, In, Then, Room, NextIn;
    NextInFacts(d, app, lay, k, cur);
    var s := NextIn(d, k, cur);
    AnyChainStep(d, s, app, lay, k, cur);
    var d1, cur1 := Next(d, s, app), Then(d, s, app, k, cur);
    Progress(d, s, app, lay, k, cur);
    if Completions(d1, k) == Completions(d, k) {
      var rest := CanFill(d1, app, lay, k, cur1);
      ss := [s] + rest;
      Prefixed(d, s, rest, app, lay, k, cur);
    } else {
      Prefixed(d, s, [], app, lay, k, cur);
      ss := [s] + [];
    }
  }

  lemma Progress(d: Device, s: Step, app: App, lay: Layout, k: Key, cur: Reception)
    requires In(d, lay, k, cur) && cur.Armed? && LegalApp(app, lay) && AppChains(app, k)
    requires Room(cur) >= 0 && cur.mps > 0 && s == NextIn(d, k, cur)
    requires Enabled(d, s) && ChainStep(d, s, lay, k) && FairStep(d, s, app, k, cur)
    ensures var d1, cur1 := Next(d, s, app), Then(d, s, app, k, cur);
      if Completions(d1, k) == Completions(d, k) then
        && cur1.Armed?
        && (d.reg[k.n].ctrRx ==> Room(cur1) == Room(cur) > 0)
        && (!d.reg[k.n].ctrRx ==> Room(cur1) == Room(cur) - Chunk(Room(cur), cur.mps))
      else Completions(d1, k) == Completions(d, k) + 1
  {
    hide LegalApp, AppChains, ChainStep, FairStep, Next, Enabled, Completions, Size, In, Finished, Landed;
    ArmedStep(d, s, app, lay, k, cur);
    if Completions(Next(d, s, app), k) == Completions(d, k) {
      if d.reg[k.n].ctrRx {
        assert cur.ps + Offered([s], k.n) == cur.ps;
        TurnServes(d, k.n, app);
        NotFull(d, app, lay, k, cur);
      } else {
        var p := s.data;
        assert Offered([s], k.n) == [p];
        ConcatAppend(cur.ps, p);
        SizeAppend(cur.ps, p);
      }
    }
  }

  lemma TurnServes(d: Device, n: EpNum, app: App)
    requires Enabled(d, InterruptTurn(n))
    ensures Next(d, InterruptTurn(n), app) == ServeEndpoint(d, n, app)
  {}

  lemma SizeAppend(ps: seq<seq<byte>>, p: seq<byte>)
    ensures Size(ps + [p]) == Size(ps) + |p|
  {
    ConcatAppend(ps, p);
  }

  /** A turn that reports nothing leaves room in the buffer. */
  lemma NotFull(d: Device, app: App, lay: Layout, k: Key, cur: Reception)
    requires In(d, lay, k, cur) && cur.Armed? && LegalApp(app, lay) && AppChains(app, k) && d.reg[k.n].ctrRx
    requires Completions(ServeEndpoint(d, k.n, app), k) == Completions(d, k)
    ensures Room(cur) > 0
  {
    hide LegalApp, AppSpares, AtMostOneTransfer, ServeEndpoint, Receiving, NoneEnds, Landed, RestingOrArmed, Times, Configured,
      Size, WantedBy;
    var got, p := cur.ps[..|cur.ps| - 1], cur.ps[|cur.ps| - 1];
    assert cur.ps == got + [p];
    OwnTurnOut(d, app, lay, k, cur.b, cur.len, cur.mps, got, p);
    PendingFits(d, lay, k, cur, got, p);
    SizeAppend(got, p);
  }
}
