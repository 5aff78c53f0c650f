/** OUT transfers on single-buffered endpoints: the user's buffer ends up holding the packets the host
    sent, in order, and the end is reported once, at the first short or completing packet. */
module OutStream {
  import opened EndpointRegister
  import opened PacketMemory
  import opened PcdRegisters
  import opened Pcd
  import opened PcdInterrupt
  import opened UsbTraffic
  import opened PmaLayout
  import opened InStream

  // ---------- what a transfer should be ----------

  function Size(ps: seq<seq<byte>>): nat {
    |Concat(ps)|
  }

  /** The packets lie in memory at b, in order and without gaps. */
  predicate Landed(ram: seq<byte>, b: nat, ps: seq<seq<byte>>) {
    b + Size(ps) <= |ram| && ram[b..b + Size(ps)] == Concat(ps)
  }

  /** USB 2.0 section 5.8.3: a bulk transfer ends with a packet shorter than the maximum, or with the
      one that completes the requested length. */
  predicate Ends(p: seq<byte>, before: nat, len: nat, mps: nat) {
    |p| < mps || before + |p| == len
  }

  /** A host that keeps within the packet size and the length asked for. */
  predicate HostPackets(ps: seq<seq<byte>>, len: nat, mps: nat) {
    forall i :: 0 <= i < |ps| ==> |ps[i]| <= mps && Size(ps[..i]) + |ps[i]| <= len
  }

  /** No packet so far ended the transfer. */
  predicate NoneEnds(ps: seq<seq<byte>>, len: nat, mps: nat) {
    forall i :: 0 <= i < |ps| ==> !Ends(ps[i], Size(ps[..i]), len, mps)
  }

  /** The last packet is the first that ends the transfer. */
  predicate Finished(ps: seq<seq<byte>>, len: nat, mps: nat) {
    ps != [] && NoneEnds(ps[..|ps| - 1], len, mps) && Ends(ps[|ps| - 1], Size(ps[..|ps| - 1]), len, mps)
  }

  lemma {:induction false} ConcatAppend(ps: seq<seq<byte>>, p: seq<byte>)
    ensures Concat(ps + [p]) == Concat(ps) + p
    decreases ps
  {
    if ps == [] {
      assert ([p])[1..] == [];
      assert Concat([p]) == p + Concat([]);
    } else {
      assert (ps + [p])[1..] == ps[1..] + [p];
      ConcatAppend(ps[1..], p);
    }
  }

  // ---------- a transfer in progress ----------

  /** `got` are the packets already in the user's buffer; none of them ended the transfer.  Waiting:
      hardware may take the next packet.  Otherwise `pending` is in packet memory. */
  ghost predicate Receiving(d: Device, lay: Layout, k: Key, b: nat, len: nat, mps: nat, got: seq<seq<byte>>,
                            pending: seq<seq<byte>>)
  {
    && Configured(d, lay) && k in lay && !k.isIn && k.n != 0 && Apart(lay, k)
    && b + len < |d.ram|
    && |pending| <= 1
    && var v := ViewOf(d, lay, k);
    && v.ep.maxPacket == mps > 0
    && v.ep.xferBuff == b + Size(got) && Size(got) <= len
    && v.ep.xferCount == 0
    && v.ep.xferLen == len - Size(got) - Chunk(len - Size(got), mps)
    && Landed(d.ram, b, got)
    && NoneEnds(got, len, mps)
    && if pending == [] then v.stat == Valid && !v.ctr && Chunk(len - Size(got), mps) <= Capacity(v.count)
       else v.stat == Nak && v.ctr && |pending[0]| <= Chunk(len - Size(got), mps)
            && CountField(v.count) == |pending[0]| && |pending[0]| <= |v.buffer| && v.buffer[..|pending[0]|] == pending[0]
  }

  // ---------- starting ----------

  lemma ReceiveArms(d: Device, lay: Layout, n: EpNum, b: nat, len: nat, got: seq<seq<byte>>)
    requires Configured(d, lay) && Key(n, false) in lay && n != 0 && Apart(lay, Key(n, false)) && b + len < |d.ram|
    requires d.outEp[n].maxPacket > 0 && !d.reg[n].ctrRx
    requires Size(got) <= len && Landed(d.ram, b, got) && NoneEnds(got, len, d.outEp[n].maxPacket)
    ensures Receiving(Receive(d, n, b + Size(got), len - Size(got)), lay, Key(n, false), b, len, d.outEp[n].maxPacket, got, [])
  {
    hide ViewOk, GetHalf, PutHalf, EncodeRx, Configured, Capacity, Landed, NoneEnds, Size;
    CallKeepsConfigured(d, lay, ReceiveCall(n, b + Size(got), len - Size(got)));
    ConfiguredKey(d, lay, Key(n, false));
    RoomForChunk(d, lay, n, b + Size(got), len - Size(got));
    ConfiguredKey(Receive(d, n, b + Size(got), len - Size(got)), lay, Key(n, false));
  }

  /** Hardware is told of room for the packet armed, and of no more than the block count rounds it up to. */
  lemma RoomForChunk(d: Device, lay: Layout, n: EpNum, buf: nat, len: nat)
    requires Configured(d, lay) && Key(n, false) in lay
    ensures var w := if len > d.outEp[n].maxPacket then d.outEp[n].maxPacket else len;
      var room := Capacity(GetHalf(Receive(d, n, buf, len).pma, RxCountAt(n)));
      w <= room && (w <= 62 ==> room <= w + 1) && (w > 62 ==> room <= w + 31)
  {
    hide GetHalf, PutHalf, EncodeRx, Capacity, Configured;
    ConfiguredKey(d, lay, Key(n, false));
    var w := Chunk(len, d.outEp[n].maxPacket);
    if w > 0 {
      RxEncodingIsLeast(w);
    } else {
      NoRoomForNothing();
    }
    GetPutHalf(d.pma, RxCountAt(n), EncodeRx(w), RxCountAt(n));
  }

  lemma NoRoomForNothing()
    ensures Capacity(EncodeRx(0)) == 0
  {}

  lemma ReceiveStarts(d: Device, lay: Layout, n: EpNum, b: nat, len: nat)
    requires Configured(d, lay) && Key(n, false) in lay && n != 0 && Apart(lay, Key(n, false)) && b + len < |d.ram|
    requires d.outEp[n].maxPacket > 0 && !d.reg[n].ctrRx
    ensures Receiving(Receive(d, n, b, len), lay, Key(n, false), b, len, d.outEp[n].maxPacket, [], [])
  {
    hide Receiving, Receive;
    ReceiveArms(d, lay, n, b, len, []);
  }

  // ---------- the steps of a transfer ----------

  lemma HostSendsPacket(d: Device, lay: Layout, k: Key, b: nat, len: nat, mps: nat, got: seq<seq<byte>>, data: seq<byte>)
    requires Receiving(d, lay, k, b, len, mps, got, []) && CanReceive(d, k.n, data, false)
    requires |data| <= mps && Size(got) + |data| <= len
    ensures Receiving(Received(d, k.n, data, false), lay, k, b, len, mps, got, [data])
  {
    hide ViewOk, GetHalf, PutHalf, EncodeRx, Configured, Capacity, PutBytes, WithCount, ActedOn;
    var d' := Received(d, k.n, data, false);
    ReceivedActs(d, lay, k.n, data);
    ActedOnKeepsConfigured(d, d', lay, k);
    ConfiguredKey(d, lay, k);
    ConfiguredKey(d', lay, k);
  }

  /** One more packet in the user's buffer: the copy lands right behind what is there. */
  lemma PacketLands(pma: seq<byte>, start: nat, ram: seq<byte>, b: nat, len: nat, got: seq<seq<byte>>, p: seq<byte>)
    requires |p| < 0x400 && start + Even(|p|) <= |pma| && pma[start..start + |p|] == p
    requires Size(got) + |p| <= len && b + len < |ram| && Landed(ram, b, got)
    ensures Landed(CopyHalves(ram, b + Size(got), pma, start, HalfCount(|p|)), b, got + [p])
    ensures Size(got + [p]) == Size(got) + |p|
  {
    hide CopyHalves;
    var at := b + Size(got);
    var h := HalfCount(|p|);
    assert 2 * h == Even(|p|);
    CopyHalvesOutside(ram, at, pma, start, h, b, at);
    SpliceFacts(ram, at, pma, start, h, |p|);
    var ram' := CopyHalves(ram, at, pma, start, h);
    ConcatAppend(got, p);
    JoinSlices(ram', b, at, at + |p|);
  }

  lemma JoinSlices(s: seq<byte>, a: nat, m: nat, z: nat)
    requires a <= m <= z <= |s|
    ensures s[a..z] == s[a..m] + s[m..z]
  {}

  /** The state after a received packet was taken and before it is dispatched: the packet is in the
      user's buffer, the pointer is behind it, and xfer_count is the size of this packet alone. */
  lemma PacketTaken(d: Device, lay: Layout, k: Key, b: nat, len: nat, mps: nat, got: seq<seq<byte>>, p: seq<byte>)
    requires Receiving(d, lay, k, b, len, mps, got, [p])
    ensures var d3 := AcceptOut(d, k.n);
      && Configured(d3, lay) && d3.log == d.log && Idle(d3, k)
      && PacketSize(AckRx(d, k.n), k.n) == |p|
      && d3.outEp[k.n] == d.outEp[k.n].(xferBuff := b + Size(got + [p]), xferCount := |p|)
      && |d3.ram| == |d.ram| && Landed(d3.ram, b, got + [p]) && Size(got + [p]) == Size(got) + |p|
  {
    hide GetHalf, EncodeRx, Capacity, ActedOn, ViewOk, CopyHalves, Configured;
    var n := k.n;
    ConfiguredKey(d, lay, k);
    OutViewFields(d, lay, n);
    var r := lay[k];
    SlicePrefix(d.pma, r.start, r.size, |p|);
    PacketLands(d.pma, r.start, d.ram, b, len, got, p);
    AcceptOutActs(d, lay, n);
    ActedOnKeepsConfigured(d, AcceptOut(d, n), lay, k);
    TakenRam(d, n, |p|);
    if |p| == 0 {
      ConcatAppend(got, p);
    }
  }

  lemma OutViewFields(d: Device, lay: Layout, n: EpNum)
    requires PmaSized(d) && Key(n, false) in lay && ValidRegion(lay[Key(n, false)])
    requires ViewOk(ViewOf(d, lay, Key(n, false)), lay[Key(n, false)], false)
    ensures var v := ViewOf(d, lay, Key(n, false));
      var r := lay[Key(n, false)];
      && v.ep == d.outEp[n] && v.ctr == d.reg[n].ctrRx && v.stat == d.reg[n].statRx
      && CountField(v.count) == RxCount(d, n) && v.buffer == d.pma[r.start..r.start + r.size]
      && !v.ep.doubleBuffer && v.ep.pmaAddress == r.start && r.start + Even(|v.buffer|) <= |d.pma| && |v.buffer| == r.size
  {
    hide GetHalf, Capacity;
  }

  lemma TakenRam(d: Device, n: EpNum, w: nat)
    requires !d.outEp[n].doubleBuffer && RxCount(d, n) == w
    ensures var d3 := AcceptOut(d, n);
      && d3.ram == (if w != 0 then CopyHalves(d.ram, d.outEp[n].xferBuff, d.pma, d.outEp[n].pmaAddress, HalfCount(w)) else d.ram)
      && d3.log == d.log && !d3.reg[n].ctrRx && PacketSize(AckRx(d, n), n) == w
      && d3.outEp[n] == d.outEp[n].(xferBuff := d.outEp[n].xferBuff + w, xferCount := d.outEp[n].xferCount + w)
  {
    hide GetHalf, CopyHalves;
  }

  // ---------- the next transfer ----------

  /** The buffer of the transfer that calls start on k, if they start one. */
  datatype Want = Nothing | Buffer(b: nat, len: nat)

  function Wanted(cs: seq<ApiCall>, k: Key): Want
    decreases cs
  {
    if cs == [] then Nothing
    else if StartsTransfer(cs[0], k) then Buffer(cs[0].buf, cs[0].len)
    else Wanted(cs[1..], k)
  }

  /** What the callback that reports a transfer on k asks for. */
  function WantedBy(d: Device, app: App, k: Key): Want {
    Wanted(app(Note(AcceptOut(d, k.n), DataOut(k.n))), k)
  }

  /** Nothing under way on k, or a reception just started. */
  ghost predicate RestingOrArmed(d: Device, lay: Layout, k: Key, w: Want, mps: nat) {
    && Configured(d, lay) && d.outEp[k.n].maxPacket == mps
    && if w.Buffer? then Receiving(d, lay, k, w.b, w.len, mps, [], []) else Idle(d, k)
  }

  /** What a callback makes of a direction with nothing under way. */
  lemma {:induction false} CallsArm(d: Device, lay: Layout, cs: seq<ApiCall>, k: Key)
    requires Configured(d, lay) && LegalCalls(lay, cs) && k in lay && !k.isIn && k.n != 0 && Apart(lay, k)
    requires Idle(d, k) && d.outEp[k.n].maxPacket > 0 && AtMostOneTransfer(cs, k, |d.ram|)
    ensures RestingOrArmed(RunCalls(d, cs), lay, k, Wanted(cs, k), d.outEp[k.n].maxPacket)
    decreases cs
  {
    hide Configured, ViewOf, LegalCall, Call, Receiving;
    if cs != [] {
      var c, d1 := cs[0], Call(d, cs[0]);
      assert c in cs;
      CallKeepsConfigured(d, lay, c);
      CallKeepsRam(d, c);
      if CallSpares(c, k) {
        CallSparesView(d, lay, c, k);
        IdleByView(d, d1, lay, k);
        SameOutSize(d, d1, lay, k);
        CallsArm(d1, lay, cs[1..], k);
      } else {
        ArmedByCall(d, lay, k, c);
        RunCallsKeep(d1, lay, cs[1..], k);
        RunCallsKeepRam(d1, cs[1..]);
        ReceivingStays(d1, RunCalls(d1, cs[1..]), lay, k, c.buf, c.len, d.outEp[k.n].maxPacket);
      }
    }
  }

  lemma ArmedByCall(d: Device, lay: Layout, k: Key, c: ApiCall)
    requires Configured(d, lay) && k in lay && !k.isIn && k.n != 0 && Apart(lay, k)
    requires Idle(d, k) && d.outEp[k.n].maxPacket > 0 && StartsTransfer(c, k) && c.buf + c.len < |d.ram|
    ensures Receiving(Call(d, c), lay, k, c.buf, c.len, d.outEp[k.n].maxPacket, [], [])
  {
    hide Configured, Receiving, Receive;
    ReceiveStarts(d, lay, k.n, c.buf, c.len);
  }

  lemma SameOutSize(d: Device, d': Device, lay: Layout, k: Key)
    requires Configured(d, lay) && Configured(d', lay) && k in lay && !k.isIn && ViewOf(d', lay, k) == ViewOf(d, lay, k)
    ensures d'.outEp[k.n].maxPacket == d.outEp[k.n].maxPacket
  {}

  lemma ReceivingStays(d: Device, d': Device, lay: Layout, k: Key, b: nat, len: nat, mps: nat)
    requires Receiving(d, lay, k, b, len, mps, [], []) && Configured(d', lay) && d'.ram == d.ram
    requires ViewOf(d', lay, k) == ViewOf(d, lay, k)
    ensures Receiving(d', lay, k, b, len, mps, [], []) && d'.outEp[k.n].maxPacket == mps
  {
    hide Configured, ViewOf, Landed, NoneEnds, Size;
    ConfiguredKey(d', lay, k);
    OutViewFields(d', lay, k.n);
  }

  lemma CallbackArms(d: Device, e: Event, app: App, lay: Layout, k: Key)
    requires Configured(d, lay) && LegalApp(app, lay) && AppChains(app, k) && k in lay && !k.isIn && k.n != 0 && Apart(lay, k)
    requires Idle(d, k) && d.outEp[k.n].maxPacket > 0
    ensures RestingOrArmed(Callback(d, e, app), lay, k, Wanted(app(Note(d, e)), k), d.outEp[k.n].maxPacket)
  {
    hide ViewOf, LegalCalls, AtMostOneTransfer, Configured, Idle, RestingOrArmed, RunCalls;
    NoteSpared(d, e, lay, k);
    IdleByView(d, Note(d, e), lay, k);
    CallsArm(Note(d, e), lay, app(Note(d, e)), k);
  }

  /** After the turn: reported done with the packet in place, or armed for the rest of the buffer. */
  ghost predicate TurnOutcome(d: Device, d': Device, app: App, lay: Layout, k: Key, b: nat, len: nat, mps: nat,
                              got: seq<seq<byte>>, p: seq<byte>)
  {
    if Ends(p, Size(got), len, mps) then
      && Times(d'.log, DataOut(k.n)) == Times(d.log, DataOut(k.n)) + 1 && Landed(d'.ram, b, got + [p])
      && Size(got + [p]) <= len && b + len <= |d'.ram|
      && (AppLeaves(app, k) ==> Configured(d', lay) && Idle(d', k))
      && (AppChains(app, k) ==> RestingOrArmed(d', lay, k, WantedBy(d, app, k), mps))
    else
      && Receiving(d', lay, k, b, len, mps, got + [p], [])
      && Times(d'.log, DataOut(k.n)) == Times(d.log, DataOut(k.n))
  }

  /** The driver's turn after a received packet: it reports the end exactly when this packet ends the
      transfer, and arms the rest of the buffer otherwise. */
  lemma DriverTakesPacket(d: Device, lay: Layout, k: Key, b: nat, len: nat, mps: nat, got: seq<seq<byte>>, p: seq<byte>,
                          app: App)
    requires Receiving(d, lay, k, b, len, mps, got, [p]) && LegalApp(app, lay)
    ensures TurnOutcome(d, ServeOut(d, k.n, app), app, lay, k, b, len, mps, got, p)
  {
    hide GetHalf, EncodeRx, Capacity, Configured, Times, Callback, Receive, AcceptOut, Size, ViewOf, PacketSize, Landed,
      AppChains, RestingOrArmed;
    var n := k.n;
    PacketTaken(d, lay, k, b, len, mps, got, p);
    ConfiguredKey(d, lay, k);
    OutViewFields(d, lay, n);
    var d3 := AcceptOut(d, n);
    var ep := d3.outEp[n];
    assert Ends(p, Size(got), len, mps) <==> ep.xferLen == 0 || |p| < mps;
    if Ends(p, Size(got), len, mps) {
      CallbackEffect(d3, DataOut(n), app);
      if AppLeaves(app, k) { IdleCallback(d3, DataOut(n), app, lay, k); }
      if AppChains(app, k) { CallbackArms(d3, DataOut(n), app, lay, k); }
      CallbackKeepsRam(d3, DataOut(n), app);
    } else {
      NextPacketEffect(d3, n, false, ContinueOut(n), ep.xferBuff, ep.xferLen);
      NoteSpared(d3, ContinueOut(n), lay, k);
      NoneEndsAppend(got, p, len, mps);
      ReceiveArms(Note(d3, ContinueOut(n)), lay, n, b, len, got + [p]);
    }
  }

  /** When the application is told of the end, every packet is in its buffer, the last one included, the
      pointer is behind them and the count is that of the last. */
  lemma ReportFindsPackets(d: Device, lay: Layout, k: Key, b: nat, len: nat, mps: nat, got: seq<seq<byte>>, p: seq<byte>,
                           app: App) returns (at: Device)
    requires Receiving(d, lay, k, b, len, mps, got, [p]) && Ends(p, Size(got), len, mps)
    ensures ServeOut(d, k.n, app) == Callback(at, DataOut(k.n), app) && at.log == d.log
    ensures |at.ram| == |d.ram| && Landed(at.ram, b, got + [p])
    ensures at.outEp[k.n] == d.outEp[k.n].(xferBuff := b + Size(got + [p]), xferCount := |p|)
    ensures Idle(at, k)
  {
    hide GetHalf, EncodeRx, Capacity, Configured, Callback, Receive, AcceptOut, Size, ViewOf, PacketSize, Landed;
    PacketTaken(d, lay, k, b, len, mps, got, p);
    ConfiguredKey(d, lay, k);
    OutViewFields(d, lay, k.n);
    at := AcceptOut(d, k.n);
  }

  lemma CallbackKeepsRam(d: Device, e: Event, app: App)
    ensures Callback(d, e, app).ram == d.ram
  {
    RunCallsKeepRam(Note(d, e), app(Note(d, e)));
  }

  lemma NoneEndsAppend(got: seq<seq<byte>>, p: seq<byte>, len: nat, mps: nat)
    requires NoneEnds(got, len, mps) && !Ends(p, Size(got), len, mps)
    ensures NoneEnds(got + [p], len, mps)
  {
    hide Size;
    var ps := got + [p];
    forall i | 0 <= i < |ps| ensures !Ends(ps[i], Size(ps[..i]), len, mps) {
      assert ps[..i] == got[..i];
      assert got[..|got|] == got;
    }
  }

  // ---------- whole transfers ----------

  /** What the host sent to endpoint n during a run, packet by packet. */
  function Offered(ss: seq<Step>, n: EpNum): seq<seq<byte>>
    decreases ss
  {
    if ss == [] then []
    else (if ss[0].HostOut? && ss[0].n == n then [ss[0].data] else []) + Offered(ss[1..], n)
  }

  /** Steps that are not this transfer's own do not write its buffer. */
  ghost predicate BufferLeft(d: Device, ss: seq<Step>, app: App, k: Key, b: nat, len: nat)
    requires RunEnabled(d, ss, app)
    decreases ss
  {
    ss == [] ||
    (var d' := Next(d, ss[0], app);
     && (StepSpares(d, ss[0], k) ==> SameRange(d.ram, d'.ram, b, len))
     && BufferLeft(d', ss[1..], app, k, b, len))
  }

  predicate SameRange(ram: seq<byte>, ram': seq<byte>, b: nat, len: nat) {
    |ram'| == |ram| && (b + len <= |ram| ==> ram'[b..b + len] == ram[b..b + len])
  }

  lemma SameRangeLanded(ram: seq<byte>, ram': seq<byte>, b: nat, len: nat, ps: seq<seq<byte>>)
    requires SameRange(ram, ram', b, len) && Landed(ram, b, ps) && Size(ps) <= len && b + len <= |ram|
    ensures Landed(ram', b, ps)
  {
    SlicePrefix(ram, b, len, Size(ps));
    SlicePrefix(ram', b, len, Size(ps));
  }

  /** Under way after the packets ps: all are in the user's buffer, or the last one is still in packet
      memory. */
  ghost predicate InReception(d: Device, lay: Layout, k: Key, b: nat, len: nat, mps: nat, ps: seq<seq<byte>>)
  {
    if d.reg[k.n].ctrRx then ps != [] && Receiving(d, lay, k, b, len, mps, ps[..|ps| - 1], [ps[|ps| - 1]])
    else Receiving(d, lay, k, b, len, mps, ps, [])
  }

  /** Between d and d' the transfer got on to the packets ps, or was reported done with them in place. */
  ghost predicate Outcome(d: Device, d': Device, app: App, lay: Layout, k: Key, b: nat, len: nat, mps: nat,
                          ps: seq<seq<byte>>)
  {
    if Completions(d', k) == Completions(d, k) then InReception(d', lay, k, b, len, mps, ps)
    else
      && Completions(d', k) == Completions(d, k) + 1 && Finished(ps, len, mps)
      && Landed(d'.ram, b, ps) && Size(ps) <= len && b + len <= |d'.ram|
      && (AppLeaves(app, k) ==> Configured(d', lay) && Idle(d', k))
      && (AppChains(app, k) ==> RestingOrArmed(d', lay, k, WantedBy(d, app, k), mps))
  }

  lemma ReceivingKey(d: Device, lay: Layout, k: Key, b: nat, len: nat, mps: nat, got: seq<seq<byte>>, pending: seq<seq<byte>>)
    requires Receiving(d, lay, k, b, len, mps, got, pending)
    ensures !k.isIn && k.n != 0 && k in lay && Apart(lay, k) && Configured(d, lay) && mps > 0
    ensures b + len < |d.ram| && Size(got) <= len
    ensures d.reg[k.n].ctrRx <==> pending != []
    ensures d.reg[k.n].statRx == Valid <==> pending == []
    ensures d.outEp[k.n].maxPacket == mps && |pending| <= 1 && Landed(d.ram, b, got) && NoneEnds(got, len, mps)
  {
    hide Configured, ViewOf, Landed, NoneEnds;
    ConfiguredKey(d, lay, k);
    OutViewFields(d, lay, k.n);
  }

  lemma OtherStepOut(d: Device, s: Step, app: App, lay: Layout, k: Key, b: nat, len: nat, mps: nat,
                     got: seq<seq<byte>>, pending: seq<seq<byte>>)
    requires Receiving(d, lay, k, b, len, mps, got, pending) && LegalApp(app, lay) && AppSpares(app, k)
    requires Enabled(d, s) && LegalStep(lay, s) && StepSpares(d, s, k)
    requires SameRange(d.ram, Next(d, s, app).ram, b, len)
    ensures Receiving(Next(d, s, app), lay, k, b, len, mps, got, pending)
    ensures Completions(Next(d, s, app), k) == Completions(d, k)
  {
    hide Next, LegalApp, AppSpares, Enabled, LegalStep, StepSpares, ViewOf, Configured, Landed, SameRange, NoneEnds, Size;
    StepSpared(d, s, app, lay, k);
    SparingStepReportsNothing(d, s, app, k);
    SameRangeLength(d.ram, Next(d, s, app).ram, b, len);
    SameRangeLanded(d.ram, Next(d, s, app).ram, b, len, got);
  }

  lemma SameRangeLength(ram: seq<byte>, ram': seq<byte>, b: nat, len: nat)
    requires SameRange(ram, ram', b, len)
    ensures |ram'| == |ram|
  {}

  /** Serving the other direction of the same endpoint in the same turn disturbs nothing. */
  lemma TxServiceLeaves(d: Device, app: App, lay: Layout, k: Key, b: nat, len: nat, mps: nat, got: seq<seq<byte>>)
    requires Receiving(d, lay, k, b, len, mps, got, []) && LegalApp(app, lay) && AppSpares(app, k)
    requires Key(k.n, true) in lay
    ensures Receiving(ServeIn(d, k.n, app), lay, k, b, len, mps, got, [])
  {
    hide ServeIn, LegalApp, AppSpares, ViewOf, Configured, Landed, NoneEnds, Size;
    ServeInSpared(d, k.n, app, lay, k);
    ServeInKeepsRam(d, k.n, app);
  }

  lemma TxServiceLeavesIdle(d: Device, app: App, lay: Layout, k: Key)
    requires Configured(d, lay) && Idle(d, k) && k in lay && !k.isIn && Apart(lay, k) && LegalApp(app, lay) && AppSpares(app, k)
    requires Key(k.n, true) in lay
    ensures Configured(ServeIn(d, k.n, app), lay) && Idle(ServeIn(d, k.n, app), k)
  {
    hide ServeIn, LegalApp, AppSpares, ViewOf, Configured, Idle;
    ServeInSpared(d, k.n, app, lay, k);
    IdleByView(d, ServeIn(d, k.n, app), lay, k);
  }

  lemma TxServiceLeavesChain(d: Device, app: App, lay: Layout, k: Key, w: Want, mps: nat)
    requires RestingOrArmed(d, lay, k, w, mps) && k in lay && !k.isIn && Apart(lay, k) && LegalApp(app, lay) && AppSpares(app, k)
    requires Key(k.n, true) in lay
    ensures RestingOrArmed(ServeIn(d, k.n, app), lay, k, w, mps)
  {
    hide ServeIn, LegalApp, AppSpares, ViewOf, Configured, Receiving, Idle;
    ServeInSpared(d, k.n, app, lay, k);
    SameOutSize(d, ServeIn(d, k.n, app), lay, k);
    if w.Buffer? {
      TxServiceLeaves(d, app, lay, k, w.b, w.len, mps, []);
    } else {
      TxServiceLeavesIdle(d, app, lay, k);
    }
  }

  lemma ServedTxReportsNoOut(d: Device, d': Device, n: EpNum)
    requires Served(d, d', n, false, true)
    ensures Times(d'.log, DataOut(n)) == Times(d.log, DataOut(n))
  {
    hide Times;
    assert ConservedAt(d, d', n);
    TimesGrow(d.log, d'.log, DataOut(n));
    TimesGrow(d.log, d'.log, ContinueOut(n));
    TimesGrow(d.log, d'.log, SetupStage);
  }

  lemma OwnTurnOut(d: Device, app: App, lay: Layout, k: Key, b: nat, len: nat, mps: nat, got: seq<seq<byte>>, p: seq<byte>)
    requires Receiving(d, lay, k, b, len, mps, got, [p]) && LegalApp(app, lay) && AppSpares(app, k)
    ensures TurnOutcome(d, ServeEndpoint(d, k.n, app), app, lay, k, b, len, mps, got, p)
  {
    hide ServeOut, ServeIn, LegalApp, AppSpares, AppLeaves, AppChains, Configured, Times, Size, Landed, Ends, Receiving,
      Served, Idle, WantedBy;
    var n := k.n;
    ReceivingKey(d, lay, k, b, len, mps, got, [p]);
    var d1 := ServeOut(d, n, app);
    DriverTakesPacket(d, lay, k, b, len, mps, got, p, app);
    if d.reg[n].ctrTx {
      FlaggedIsConfigured(d, lay, n);
      ServeOutOnce(d, n, app);
      assert d1.reg[n].ctrTx by { ServedTx(d, d1, n); }
      ServeInOnce(d1, n, app);
      ServedTxReportsNoOut(d1, ServeIn(d1, n, app), n);
      ServeInKeepsRam(d1, n, app);
      if !Ends(p, Size(got), len, mps) {
        TxServiceLeaves(d1, app, lay, k, b, len, mps, got + [p]);
      } else {
        if AppLeaves(app, k) { TxServiceLeavesIdle(d1, app, lay, k); }
        if AppChains(app, k) { TxServiceLeavesChain(d1, app, lay, k, WantedBy(d, app, k), mps); }
      }
    }
  }

  lemma ServedTx(d: Device, d': Device, n: EpNum)
    requires Served(d, d', n, true, false)
    ensures d'.reg[n].ctrTx == d.reg[n].ctrTx
  {}

  lemma LastOfAppend<T>(s: seq<T>, x: T)
    ensures (s + [x])[..|s + [x]| - 1] == s && (s + [x])[|s + [x]| - 1] == x
  {}

  lemma TurnDone(d: Device, d': Device, app: App, lay: Layout, k: Key, b: nat, len: nat, mps: nat, got: seq<seq<byte>>,
                 p: seq<byte>)
    requires TurnOutcome(d, d', app, lay, k, b, len, mps, got, p) && !k.isIn && NoneEnds(got, len, mps)
    ensures Outcome(d, d', app, lay, k, b, len, mps, got + [p])
  {
    hide Receiving, Times, Size, Landed, NoneEnds, Ends, AppChains, RestingOrArmed, WantedBy;
    LastOfAppend(got, p);
    if !Ends(p, Size(got), len, mps) {
      ReceivingKey(d', lay, k, b, len, mps, got + [p], []);
    }
  }

  /** The host's packets of a step of the run. */
  predicate Polite(s: Step, n: EpNum, before: nat, len: nat, mps: nat) {
    s.HostOut? && s.n == n ==> |s.data| <= mps && before + |s.data| <= len
  }

  lemma HostStepOut(d: Device, app: App, lay: Layout, k: Key, b: nat, len: nat, mps: nat, ps: seq<seq<byte>>, data: seq<byte>)
    requires InReception(d, lay, k, b, len, mps, ps) && CanReceive(d, k.n, data, false)
    requires |data| <= mps && Size(ps) + |data| <= len
    ensures Outcome(d, Received(d, k.n, data, false), app, lay, k, b, len, mps, ps + [data])
  {
    hide Received, Receiving, Completions, Size, Capacity, GetHalf;
    var got, pending := Split(d, k, ps);
    ReceivingKey(d, lay, k, b, len, mps, got, pending);
    HostSendsPacket(d, lay, k, b, len, mps, got, data);
    ReceivingKey(Received(d, k.n, data, false), lay, k, b, len, mps, got, [data]);
    LastOfAppend(ps, data);
    ReceivedLogsNothing(d, k, data);
  }

  /** The packets taken and the one still in packet memory. */
  lemma Split(d: Device, k: Key, ps: seq<seq<byte>>) returns (got: seq<seq<byte>>, pending: seq<seq<byte>>)
    requires d.reg[k.n].ctrRx ==> ps != []
    ensures if d.reg[k.n].ctrRx then got == ps[..|ps| - 1] && pending == [ps[|ps| - 1]] else got == ps && pending == []
  {
    got := if d.reg[k.n].ctrRx then ps[..|ps| - 1] else ps;
    pending := if d.reg[k.n].ctrRx then [ps[|ps| - 1]] else [];
  }

  lemma OwnStepOut(d: Device, app: App, lay: Layout, k: Key, b: nat, len: nat, mps: nat, ps: seq<seq<byte>>)
    requires InReception(d, lay, k, b, len, mps, ps) && LegalApp(app, lay) && AppSpares(app, k) && d.reg[k.n].ctrRx
    ensures Outcome(d, ServeEndpoint(d, k.n, app), app, lay, k, b, len, mps, ps)
  {
    hide LegalApp, AppSpares, ServeEndpoint, Receiving, TurnOutcome, Outcome;
    var got, p := ps[..|ps| - 1], ps[|ps| - 1];
    ReceivingKey(d, lay, k, b, len, mps, got, [p]);
    OwnTurnOut(d, app, lay, k, b, len, mps, got, p);
    assert got + [p] == ps;
    TurnDone(d, ServeEndpoint(d, k.n, app), app, lay, k, b, len, mps, got, p);
  }

  lemma SparedStepOut(d: Device, s: Step, app: App, lay: Layout, k: Key, b: nat, len: nat, mps: nat, ps: seq<seq<byte>>)
    requires InReception(d, lay, k, b, len, mps, ps) && LegalApp(app, lay) && AppSpares(app, k)
    requires Enabled(d, s) && LegalStep(lay, s) && StepSpares(d, s, k)
    requires SameRange(d.ram, Next(d, s, app).ram, b, len)
    ensures Outcome(d, Next(d, s, app), app, lay, k, b, len, mps, ps)
  {
    hide Next, LegalApp, AppSpares, Enabled, LegalStep, StepSpares, Receiving, SameRange, Completions;
    var got, pending := Split(d, k, ps);
    OtherStepOut(d, s, app, lay, k, b, len, mps, got, pending);
    ReceivingKey(d, lay, k, b, len, mps, got, pending);
    ReceivingKey(Next(d, s, app), lay, k, b, len, mps, got, pending);
  }

  lemma AnyStepOut(d: Device, s: Step, app: App, lay: Layout, k: Key, b: nat, len: nat, mps: nat, ps: seq<seq<byte>>)
    requires InReception(d, lay, k, b, len, mps, ps) && LegalApp(app, lay) && AppSpares(app, k)
    requires Enabled(d, s) && CallsLeave([s], lay, k) && Polite(s, k.n, Size(ps), len, mps)
    requires StepSpares(d, s, k) ==> SameRange(d.ram, Next(d, s, app).ram, b, len)
    ensures Outcome(d, Next(d, s, app), app, lay, k, b, len, mps, ps + Offered([s], k.n))
  {
    hide LegalApp, AppSpares, LegalStep, Sent, Call, CallSpares, ServeEndpoint, Received, Receiving,
      SameRange, Size, CanReceive, Outcome;
    assert s in [s];
    InReceptionKey(d, lay, k, b, len, mps, ps);
    if s.HostOut? && s.n == k.n {
      HostStepOut(d, app, lay, k, b, len, mps, ps, s.data);
      assert s == HostOut(k.n, s.data, false);
      assert Offered([s], k.n) == [s.data];
    } else {
      assert ps + Offered([s], k.n) == ps;
      if s == InterruptTurn(k.n) && d.reg[k.n].ctrRx {
        OwnStepOut(d, app, lay, k, b, len, mps, ps);
      } else {
        SparedStepOut(d, s, app, lay, k, b, len, mps, ps);
      }
    }
  }

  lemma InReceptionKey(d: Device, lay: Layout, k: Key, b: nat, len: nat, mps: nat, ps: seq<seq<byte>>)
    requires InReception(d, lay, k, b, len, mps, ps)
    ensures !k.isIn && k.n != 0 && k in lay && Apart(lay, k)
  {
    hide Receiving;
    var got, pending := Split(d, k, ps);
    ReceivingKey(d, lay, k, b, len, mps, got, pending);
  }

  lemma OfferedHead(ss: seq<Step>, n: EpNum)
    requires ss != []
    ensures Offered(ss, n) == Offered([ss[0]], n) + Offered(ss[1..], n)
  {}

  lemma ReceivedLogsNothing(d: Device, k: Key, data: seq<byte>)
    requires |data| < 0x400
    ensures Completions(Received(d, k.n, data, false), k) == Completions(d, k)
  {}

  /** With nothing under way the host can send nothing. */
  lemma {:induction false} IdleOffered(d: Device, ss: seq<Step>, app: App, k: Key)
    requires RunEnabled(d, ss, app) && RunSpares(d, ss, app, k) && !k.isIn
    ensures Offered(ss, k.n) == []
    decreases ss
  {
    hide Next, Enabled;
    if ss != [] {
      IdleOffered(Next(d, ss[0], app), ss[1..], app, k);
    }
  }

  /** Nobody else writes the buffer while nothing is under way. */
  lemma {:induction false} IdleBuffer(d: Device, ss: seq<Step>, app: App, k: Key, b: nat, len: nat, ps: seq<seq<byte>>)
    requires RunEnabled(d, ss, app) && RunSpares(d, ss, app, k) && BufferLeft(d, ss, app, k, b, len)
    requires Landed(d.ram, b, ps) && Size(ps) <= len && b + len <= |d.ram|
    ensures Landed(Run(d, ss, app).ram, b, ps) && b + len <= |Run(d, ss, app).ram|
    decreases ss
  {
    hide Next, Enabled, StepSpares, Landed, Size, SameRange;
    if ss != [] {
      var d1 := Next(d, ss[0], app);
      SameRangeLength(d.ram, d1.ram, b, len);
      SameRangeLanded(d.ram, d1.ram, b, len, ps);
      IdleBuffer(d1, ss[1..], app, k, b, len, ps);
    }
  }

  /** After the report: nothing more arrives, nothing more is reported and the packets stay in place,
      however long the run. */
  lemma AfterReportOut(d0: Device, d: Device, ss: seq<Step>, app: App, lay: Layout, k: Key, b: nat, len: nat, mps: nat,
                       ps: seq<seq<byte>>)
    requires k in lay && !k.isIn && k.n != 0 && Apart(lay, k) && LegalApp(app, lay) && AppSpares(app, k)
    requires Outcome(d0, d, app, lay, k, b, len, mps, ps) && Completions(d, k) != Completions(d0, k)
    requires RunEnabled(d, ss, app) && CallsLeave(ss, lay, k) && BufferLeft(d, ss, app, k, b, len)
    requires ss == [] || AppLeaves(app, k)
    ensures Offered(ss, k.n) == []
    ensures AppLeaves(app, k) ==> Idle(Run(d, ss, app), k)
    ensures var d' := Run(d, ss, app);
      Completions(d', k) == Completions(d0, k) + 1 && Finished(ps, len, mps) && Landed(d'.ram, b, ps)
  {
    hide Configured, LegalApp, AppSpares, AppLeaves, Completions, Idle, CallsLeave, Next, Enabled, Finished, Landed,
      Size, BufferLeft, InReception;
    if ss != [] {
      IdleRun(d, ss, app, lay, k);
      IdleOffered(d, ss, app, k);
      IdleBuffer(d, ss, app, k, b, len, ps);
    }
  }

  /** What a run makes of a transfer: still under way after the packets ps, or reported done once, with
      them in place. */
  ghost predicate RunOutcome(d: Device, d': Device, app: App, lay: Layout, k: Key, b: nat, len: nat, mps: nat,
                             ps: seq<seq<byte>>)
  {
    if Completions(d', k) == Completions(d, k) then InReception(d', lay, k, b, len, mps, ps)
    else
      && Completions(d', k) == Completions(d, k) + 1 && Finished(ps, len, mps) && Landed(d'.ram, b, ps)
      && (AppLeaves(app, k) ==> Idle(d', k))
  }

  lemma {:induction false} ReceptionRun(d: Device, ss: seq<Step>, app: App, lay: Layout, k: Key, b: nat, len: nat, mps: nat,
                                        ps: seq<seq<byte>>)
    requires InReception(d, lay, k, b, len, mps, ps) && LegalApp(app, lay)
    requires RunEnabled(d, ss, app) && CallsLeave(ss, lay, k)
    requires BufferLeft(d, ss, app, k, b, len) && OneTransfer(d, ss, app, k)
    requires HostPackets(ps + Offered(ss, k.n), len, mps)
    ensures RunOutcome(d, Run(d, ss, app), app, lay, k, b, len, mps, ps + Offered(ss, k.n))
    decreases ss
  {
    hide LegalApp, AppSpares, AppLeaves, Enabled, CallsLeave, OneTransfer, InReception, Completions, Next,
      HostPackets, Size, StepSpares, SameRange, Finished, Landed, Polite, Idle, Configured;
    if ss == [] {
      assert ps + Offered(ss, k.n) == ps;
    } else {
      var s := ss[0];
      var d1 := Next(d, s, app);
      CallsLeaveParts(ss, lay, k);
      OneTransferStep(d, ss, app, k);
      var ps1 := ps + Offered([s], k.n);
      OfferedHead(ss, k.n);
      assert ps1 + Offered(ss[1..], k.n) == ps + Offered(ss, k.n);
      PoliteFirst(s, ss, k.n, ps, len, mps);
      AnyStepOut(d, s, app, lay, k, b, len, mps, ps);
      if Completions(d1, k) == Completions(d, k) {
        ReceptionRun(d1, ss[1..], app, lay, k, b, len, mps, ps1);
      } else {
        InReceptionKey(d, lay, k, b, len, mps, ps);
        AfterReportOut(d, d1, ss[1..], app, lay, k, b, len, mps, ps1);
      }
    }
  }

  lemma PoliteFirst(s: Step, ss: seq<Step>, n: EpNum, ps: seq<seq<byte>>, len: nat, mps: nat)
    requires ss != [] && s == ss[0] && HostPackets(ps + Offered(ss, n), len, mps)
    ensures Polite(s, n, Size(ps), len, mps)
  {
    hide Size;
    if s.HostOut? && s.n == n {
      var all := ps + Offered(ss, n);
      assert all[|ps|] == s.data && all[..|ps|] == ps;
    }
  }

  /** The reassembly theorem.  Arm a single-buffered OUT endpoint whose packet buffer is its own for len
      bytes; then let the host send any packets that keep within the packet size and the length, while the
      other endpoints, the interrupt loop and the application do what they like for as long as they like,
      as long as calls leave this endpoint alone and nobody else writes the buffer.  DataOut is reported
      at most once.  From then on the last packet is the first that is short or completes the length, the
      buffer holds the packets in order, and nothing more can arrive; until then no packet taken was such
      a one, and all of them but a last one still in packet memory are in the buffer. */
  lemma TransferFillsBuffer(d0: Device, n: EpNum, buf: nat, len: nat, ss: seq<Step>, app: App, lay: Layout)
    requires n != 0 && Key(n, false) in lay && Apart(lay, Key(n, false)) && Configured(d0, lay) && LegalApp(app, lay)
    requires buf + len < |d0.ram| && d0.outEp[n].maxPacket > 0 && !d0.reg[n].ctrRx
    requires var d := Receive(d0, n, buf, len);
      && RunEnabled(d, ss, app) && CallsLeave(ss, lay, Key(n, false)) && OneTransfer(d, ss, app, Key(n, false))
      && BufferLeft(d, ss, app, Key(n, false), buf, len)
    requires HostPackets(Offered(ss, n), len, d0.outEp[n].maxPacket)
    ensures var d := Receive(d0, n, buf, len);
      var d', ps, mps := Run(d, ss, app), Offered(ss, n), d0.outEp[n].maxPacket;
      var reports := Completions(d', Key(n, false)) - Completions(d, Key(n, false));
      && 0 <= reports <= 1
      && (reports == 1 ==>
            Finished(ps, len, mps) && Landed(d'.ram, buf, ps) && (AppLeaves(app, Key(n, false)) ==> Idle(d', Key(n, false))))
      && (reports == 0 ==>
            if d'.reg[n].ctrRx then ps != [] && NoneEnds(ps[..|ps| - 1], len, mps) && Landed(d'.ram, buf, ps[..|ps| - 1])
            else NoneEnds(ps, len, mps) && Landed(d'.ram, buf, ps))
  {
    hide Receive, LegalApp, AppSpares, AppLeaves, CallsLeave, BufferLeft, OneTransfer, RunEnabled, Run, Completions, Configured,
      Receiving, HostPackets, NoneEnds, Landed, Size, Finished, Idle;
    var k := Key(n, false);
    var d := Receive(d0, n, buf, len);
    var mps := d0.outEp[n].maxPacket;
    ReceiveStarts(d0, lay, n, buf, len);
    ReceivingKey(d, lay, k, buf, len, mps, [], []);
    assert [] + Offered(ss, n) == Offered(ss, n);
    ReceptionRun(d, ss, app, lay, k, buf, len, mps, []);
    var d', ps := Run(d, ss, app), Offered(ss, n);
    if Completions(d', k) == Completions(d, k) {
      if d'.reg[n].ctrRx {
        ReceivingKey(d', lay, k, buf, len, mps, ps[..|ps| - 1], [ps[|ps| - 1]]);
      } else {
        ReceivingKey(d', lay, k, buf, len, mps, ps, []);
      }
    }
  }

  // ---------- how much was received ----------

  /** What the application finds when DataOut is reported: the pointer has advanced by the whole
      transfer, but xfer_count is the size of the last packet alone; it equals the total exactly when
      everything before that packet was empty, that is, when the transfer was one packet. */
  lemma RxCountIsLastPacket(d: Device, lay: Layout, k: Key, b: nat, len: nat, mps: nat, got: seq<seq<byte>>, p: seq<byte>)
    requires Receiving(d, lay, k, b, len, mps, got, [p])
    ensures var ep := AcceptOut(d, k.n).outEp[k.n];
      && ep.xferBuff - b == Size(got + [p])
      && ep.xferCount == |p|
      && (ep.xferCount == Size(got + [p]) <==> got == [])
  {
    hide Configured, ViewOf, Landed, NoneEnds, Size;
    PacketTaken(d, lay, k, b, len, mps, got, p);
    ReceivingKey(d, lay, k, b, len, mps, got, [p]);
    if got == [] {
      EmptyHasNoSize();
    } else {
      ContinuedPacketsAreFull(got, len, mps);
    }
  }

  lemma EmptyHasNoSize()
    ensures Size([]) == 0
  {}

  lemma ContinuedPacketsAreFull(got: seq<seq<byte>>, len: nat, mps: nat)
    requires got != [] && NoneEnds(got, len, mps) && mps > 0
    ensures Size(got) >= mps
  {
    assert !Ends(got[0], Size(got[..0]), len, mps);
  }
}
