/** IN transfers on single-buffered endpoints: what the host receives is the user's buffer, cut into
    packets, whatever else the device does meanwhile. */
module InStream {
  import opened EndpointRegister
  import opened PacketMemory
  import opened PcdRegisters
  import opened Pcd
  import opened PcdInterrupt
  import opened UsbTraffic
  import opened PmaLayout

  // ---------- what the host should see ----------

  /** The packets of a transfer: full ones, then the rest; an empty transfer is one empty packet. */
  function Packets(data: seq<byte>, mps: nat): (r: seq<seq<byte>>)
    requires mps > 0
    ensures |r| > 0
    decreases |data|
  {
    if |data| <= mps then [data] else [data[..mps]] + Packets(data[mps..], mps)
  }

  function Concat(ps: seq<seq<byte>>): seq<byte>
    decreases ps
  {
    if ps == [] then [] else ps[0] + Concat(ps[1..])
  }

  lemma {:induction false} PacketsJoin(data: seq<byte>, mps: nat)
    requires mps > 0
    ensures Concat(Packets(data, mps)) == data
    decreases |data|
  {
    if |data| <= mps {
      assert Concat([data]) == data + Concat([]);
    } else {
      var rest := Packets(data[mps..], mps);
      PacketsJoin(data[mps..], mps);
      assert ([data[..mps]] + rest)[1..] == rest;
      assert data == data[..mps] + data[mps..];
    }
  }

  /** All packets but the last are full, the last is not over-long, and a packet is empty only when
      the transfer is. */
  lemma {:induction false} PacketSizes(data: seq<byte>, mps: nat, i: nat)
    requires mps > 0 && i < |Packets(data, mps)|
    ensures i + 1 < |Packets(data, mps)| ==> |Packets(data, mps)[i]| == mps
    ensures |Packets(data, mps)[i]| <= mps
    ensures Packets(data, mps)[i] == [] <==> data == []
    decreases |data|
  {
    if |data| > mps && i > 0 {
      PacketSizes(data[mps..], mps, i - 1);
    }
  }

  // ---------- a transfer in progress ----------

  /** A transfer of user[..len], where `user` is the user's buffer and the byte after it. */
  predicate InProgress(v: View, b: nat, user: seq<byte>) {
    && |user| > 0 && v.ep.maxPacket > 0
    && b <= v.ep.xferBuff
    && var len := |user| - 1;
      var off := v.ep.xferBuff - b;
      var k := CountField(v.count);
    && off + k + v.ep.xferLen == len
    && k == Chunk(len - off, v.ep.maxPacket)
    && Even(k) <= |v.buffer|
    && v.buffer[..Even(k)] == user[off..off + Even(k)]
  }

  /** The packets still to be acknowledged. */
  function Remaining(v: View, b: nat, user: seq<byte>): seq<seq<byte>>
    requires InProgress(v, b, user)
  {
    Packets(user[v.ep.xferBuff - b..|user| - 1], v.ep.maxPacket)
  }

  /** Armed: the next packet is in packet memory and hardware may send it.  Otherwise it has been
      acknowledged and waits for the driver. */
  predicate Phase(v: View, armed: bool) {
    if armed then v.stat == Valid && !v.ctr else v.stat == Nak && v.ctr
  }

  predicate HoldsBuffer(d: Device, b: nat, user: seq<byte>) {
    b + |user| <= |d.ram| && d.ram[b..b + |user|] == user
  }

  ghost predicate Sending(d: Device, lay: Layout, k: Key, b: nat, user: seq<byte>, left: seq<seq<byte>>)
  {
    && Configured(d, lay) && k in lay && k.isIn && k.n != 0 && Apart(lay, k)
    && HoldsBuffer(d, b, user)
    && var v := ViewOf(d, lay, k);
    && InProgress(v, b, user)
    && (Phase(v, true) || Phase(v, false))
    && left == if Phase(v, true) then Remaining(v, b, user) else Remaining(v, b, user)[1..]
  }

  // ---------- starting ----------

  lemma TransmitBuffer(pma: seq<byte>, r: Region, n: EpNum, ram: seq<byte>, buf: nat, w: nat)
    requires ValidRegion(r) && |pma| == PMA_SIZE && w < 0x400 && Even(w) <= r.size && buf + Even(w) <= |ram|
    ensures var pma' := PutHalf(CopyHalves(pma, r.start, ram, buf, HalfCount(w)), TxCountAt(n), w % 0x1_0000);
      |pma'| == PMA_SIZE && pma'[r.start..r.start + Even(w)] == ram[buf..buf + Even(w)]
  {
    hide CopyHalves, PutHalf;
    var pma1 := CopyHalves(pma, r.start, ram, buf, HalfCount(w));
    CopyHalvesIsSplice(pma, r.start, ram, buf, HalfCount(w));
    assert 2 * HalfCount(w) == Even(w);
    assert pma1[r.start..r.start + Even(w)] == ram[buf..buf + Even(w)];
    PutHalfOutside(pma1, TxCountAt(n), w % 0x1_0000, r.start, r.start + Even(w));
  }

  lemma TransmitView(d: Device, lay: Layout, n: EpNum, buf: nat, len: nat)
    requires Configured(d, lay) && Key(n, true) in lay && buf + len < |d.ram|
    ensures var v := ViewOf(d, lay, Key(n, true));
      var v' := ViewOf(Transmit(d, n, buf, len), lay, Key(n, true));
      var w := Chunk(len, v.ep.maxPacket);
      && v'.ep == StartTransfer(v.ep, buf, len)
      && CountField(v'.count) == w
      && Even(w) <= |v'.buffer| && v'.buffer[..Even(w)] == d.ram[buf..buf + Even(w)]
      && v'.ctr == v.ctr && v'.stat == Valid
  {
    hide CopyHalves, PutHalf, GetHalf, ChangedOnly, Capacity, EncodeRx, Configured;
    var k := Key(n, true);
    var r := lay[k];
    ConfiguredKey(d, lay, k);
    var w := Chunk(len, d.inEp[n].maxPacket);
    EvenMonotone(w, d.inEp[n].maxPacket);
    TransmitMemory(d.pma, lay, k, d.ram, buf, w);
    TransmitBuffer(d.pma, r, n, d.ram, buf, w);
    var d' := Transmit(d, n, buf, len);
    assert d'.pma == PutHalf(CopyHalves(d.pma, r.start, d.ram, buf, HalfCount(w)), TxCountAt(n), w % 0x1_0000);
    SlicePrefix(d'.pma, r.start, r.size, Even(w));
  }

  /** Arming the rest of the buffer leaves exactly the packets of the rest to be sent. */
  lemma TransmitArms(d: Device, lay: Layout, n: EpNum, b: nat, user: seq<byte>, off: nat)
    requires Configured(d, lay) && Key(n, true) in lay && n != 0 && Apart(lay, Key(n, true))
    requires off < |user| && HoldsBuffer(d, b, user)
    requires d.inEp[n].maxPacket > 0 && !d.reg[n].ctrTx
    ensures Sending(Transmit(d, n, b + off, |user| - 1 - off), lay, Key(n, true), b, user,
                    Packets(user[off..|user| - 1], d.inEp[n].maxPacket))
  {
    hide ViewOk, ViewOf, Transmit, Configured;
    var buf, len := b + off, |user| - 1 - off;
    TransmitView(d, lay, n, buf, len);
    TransmitFrame(d, n, buf, len);
    CallKeepsConfigured(d, lay, TransmitCall(n, buf, len));
    ConfiguredKey(d, lay, Key(n, true));
    ConfiguredKey(Transmit(d, n, buf, len), lay, Key(n, true));
    ViewFields(d, lay, n);
    var w := Chunk(len, d.inEp[n].maxPacket);
    SliceOfSlice(d.ram, b, |user|, off, Even(w));
  }

  lemma TransmitFrame(d: Device, n: EpNum, buf: nat, len: nat)
    ensures Transmit(d, n, buf, len).ram == d.ram && Transmit(d, n, buf, len).log == d.log
  {
    hide CopyHalves, PutHalf;
  }

  lemma ViewFields(d: Device, lay: Layout, n: EpNum)
    requires PmaSized(d) && Key(n, true) in lay && ValidRegion(lay[Key(n, true)])
    ensures var v := ViewOf(d, lay, Key(n, true));
      && v.ep == d.inEp[n] && v.ctr == d.reg[n].ctrTx && v.stat == d.reg[n].statTx
      && CountField(v.count) == TxCount(d, n) && |v.buffer| == lay[Key(n, true)].size
      && v.addr == GetHalf(d.pma, TxAddressAt(n))
      && v.buffer == d.pma[lay[Key(n, true)].start..lay[Key(n, true)].start + lay[Key(n, true)].size]
  {
    hide GetHalf;
  }

  /** EP_Transmit starts a transfer whose packets are all still to be sent. */
  lemma TransmitStarts(d: Device, lay: Layout, n: EpNum, buf: nat, len: nat)
    requires Configured(d, lay) && Key(n, true) in lay && n != 0 && Apart(lay, Key(n, true)) && buf + len < |d.ram|
    requires d.inEp[n].maxPacket > 0 && !d.reg[n].ctrTx
    ensures Sending(Transmit(d, n, buf, len), lay, Key(n, true), buf, d.ram[buf..buf + len + 1],
                    Packets(d.ram[buf..buf + len], d.inEp[n].maxPacket))
  {
    hide Sending, Transmit;
    var user := d.ram[buf..buf + len + 1];
    TransmitArms(d, lay, n, buf, user, 0);
    assert user[0..len] == d.ram[buf..buf + len];
  }

  // ---------- the steps of a transfer ----------

  /** The host takes the next packet. */
  lemma HostTakesPacket(d: Device, lay: Layout, k: Key, b: nat, user: seq<byte>, left: seq<seq<byte>>)
    requires Sending(d, lay, k, b, user, left) && CanSend(d, k.n)
    ensures |left| > 0 && PacketToSend(d, k.n) == left[0]
    ensures Sending(Sent(d, k.n), lay, k, b, user, left[1..])
  {
    hide GetHalf, Capacity, EncodeRx, Configured, ActedOn, ViewOk;
    ConfiguredKey(d, lay, k);
    var v := ViewOf(d, lay, k);
    var d' := Sent(d, k.n);
    SentActs(d, lay, k.n);
    ActedOnKeepsConfigured(d, d', lay, k);
    ConfiguredKey(d', lay, k);
    assert Phase(v, true);
    SentPacket(d, lay, k, b, user);
    var v' := ViewOf(d', lay, k);
    assert v' == v.(ctr := true, stat := Nak, dtog := v'.dtog);
  }

  lemma SentPacket(d: Device, lay: Layout, k: Key, b: nat, user: seq<byte>)
    requires Configured(d, lay) && k in lay && k.isIn && InProgress(ViewOf(d, lay, k), b, user)
    ensures PacketToSend(d, k.n) == Remaining(ViewOf(d, lay, k), b, user)[0]
  {
    hide GetHalf, Capacity, EncodeRx;
    var v := ViewOf(d, lay, k);
    assert ViewOk(v, lay[k], k.isIn);
    var off, w := v.ep.xferBuff - b, CountField(v.count);
    SlicePrefix(d.pma, lay[k].start, lay[k].size, w);
    assert PacketToSend(d, k.n) == v.buffer[..w];
    FirstPacket(v.buffer, user, off, w, Even(w), v.ep.maxPacket);
  }

  lemma FirstPacket(buffer: seq<byte>, user: seq<byte>, off: nat, w: nat, e: nat, mps: nat)
    requires w <= e <= |buffer| && off + e <= |user| && buffer[..e] == user[off..off + e]
    requires mps > 0 && off < |user| && w == Chunk(|user| - 1 - off, mps)
    ensures buffer[..w] == Packets(user[off..|user| - 1], mps)[0]
  {
    assert buffer[..w] == buffer[..e][..w];
    assert user[off..off + w] == user[off..off + e][..w];
    var rest := user[off..|user| - 1];
    assert user[off..off + w] == rest[..w];
    if |rest| <= mps { assert rest[..w] == rest; }
  }

  /** The copy the interrupt handler makes of a packet already sent changes nothing. */
  lemma RecopyIsHarmless(d: Device, lay: Layout, k: Key, b: nat, user: seq<byte>)
    requires Configured(d, lay) && k in lay && k.isIn && InProgress(ViewOf(d, lay, k), b, user)
    requires HoldsBuffer(d, b, user)
    ensures RecopyPacket(d, k.n) == d
  {
    hide GetHalf, Capacity, EncodeRx, CopyHalves, Configured, ViewOf;
    ConfiguredKey(d, lay, k);
    ViewFields(d, lay, k.n);
    var v := ViewOf(d, lay, k);
    var off, w := v.ep.xferBuff - b, CountField(v.count);
    SliceOfSlice(d.ram, b, |user|, off, Even(w));
    SlicePrefix(d.pma, lay[k].start, lay[k].size, Even(w));
    CopyOfSame(d.pma, lay[k].start, d.ram, v.ep.xferBuff, w);
  }

  lemma CopyOfSame(pma: seq<byte>, start: nat, ram: seq<byte>, buf: nat, w: nat)
    requires w < 0x400 && start + Even(w) <= |pma| && buf + Even(w) <= |ram|
    requires pma[start..start + Even(w)] == ram[buf..buf + Even(w)]
    ensures CopyHalves(pma, start, ram, buf, HalfCount(w)) == pma
  {
    hide CopyHalves;
    assert 2 * HalfCount(w) == Even(w);
    CopyHalvesIsSplice(pma, start, ram, buf, HalfCount(w));
    SpliceSame(pma, start, start + Even(w));
  }

  // ---------- the next transfer ----------

  /** A transfer on k has just been started: all of its packets are still to be sent. */
  ghost predicate JustStarted(d: Device, lay: Layout, k: Key) {
    && CurrentBuffer(d, k) + CurrentLength(d, k) < |d.ram|
    && d.inEp[k.n].maxPacket > 0
    && Sending(d, lay, k, CurrentBuffer(d, k), CurrentUser(d, k), CurrentPackets(d, k))
  }

  function CurrentBuffer(d: Device, k: Key): nat {
    d.inEp[k.n].xferBuff
  }

  function CurrentLength(d: Device, k: Key): nat {
    TxCount(d, k.n) + d.inEp[k.n].xferLen
  }

  /** The user's buffer of a transfer just started, and the byte after it. */
  function CurrentUser(d: Device, k: Key): seq<byte> {
    if CurrentBuffer(d, k) + CurrentLength(d, k) < |d.ram|
    then d.ram[CurrentBuffer(d, k)..CurrentBuffer(d, k) + CurrentLength(d, k) + 1]
    else []
  }

  function CurrentPackets(d: Device, k: Key): seq<seq<byte>> {
    if CurrentBuffer(d, k) + CurrentLength(d, k) < |d.ram| && d.inEp[k.n].maxPacket > 0
    then Packets(d.ram[CurrentBuffer(d, k)..CurrentBuffer(d, k) + CurrentLength(d, k)], d.inEp[k.n].maxPacket)
    else []
  }

  /** Nothing under way on k, or a transfer just started. */
  ghost predicate RestingOrStarted(d: Device, lay: Layout, k: Key) {
    && Configured(d, lay) && d.inEp[k.n].maxPacket > 0
    && if CanSend(d, k.n) then JustStarted(d, lay, k) else Idle(d, k)
  }

  lemma StartedByTransmit(d: Device, lay: Layout, k: Key, buf: nat, len: nat)
    requires Configured(d, lay) && k in lay && k.isIn && k.n != 0 && Apart(lay, k) && buf + len < |d.ram|
    requires d.inEp[k.n].maxPacket > 0 && !d.reg[k.n].ctrTx
    ensures JustStarted(Transmit(d, k.n, buf, len), lay, k) && CanSend(Transmit(d, k.n, buf, len), k.n)
  {
    hide Sending, Transmit, Configured, ViewOf, Packets;
    var d' := Transmit(d, k.n, buf, len);
    TransmitStarts(d, lay, k.n, buf, len);
    TransmitFrame(d, k.n, buf, len);
    StartedFields(d, lay, k, buf, len);
    assert d.ram[buf..buf + len + 1][0..len] == d.ram[buf..buf + len];
  }

  lemma StartedFields(d: Device, lay: Layout, k: Key, buf: nat, len: nat)
    requires Configured(d, lay) && k in lay && k.isIn && buf + len < |d.ram|
    ensures var d' := Transmit(d, k.n, buf, len);
      && CurrentBuffer(d', k) == buf && CurrentLength(d', k) == len
      && d'.inEp[k.n].maxPacket == d.inEp[k.n].maxPacket && CanSend(d', k.n)
  {
    hide Transmit, Configured, ViewOf, ViewOk;
    var d' := Transmit(d, k.n, buf, len);
    ConfiguredKey(d, lay, k);
    CallKeepsConfigured(d, lay, TransmitCall(k.n, buf, len));
    ConfiguredKey(d', lay, k);
    TransmitView(d, lay, k.n, buf, len);
    ViewFields(d, lay, k.n);
    ViewFields(d', lay, k.n);
  }

  /** A step that leaves k's view and memory leaves a transfer just started as it was. */
  lemma StartedStays(d: Device, d': Device, lay: Layout, k: Key)
    requires JustStarted(d, lay, k) && CanSend(d, k.n) && Configured(d', lay) && d'.ram == d.ram
    requires ViewOf(d', lay, k) == ViewOf(d, lay, k)
    ensures JustStarted(d', lay, k) && CanSend(d', k.n) && d'.inEp[k.n].maxPacket > 0
  {
    hide Configured, ViewOf, Packets, InProgress, ViewOk;
    ConfiguredKey(d, lay, k);
    ConfiguredKey(d', lay, k);
    ViewFields(d, lay, k.n);
    ViewFields(d', lay, k.n);
  }

  /** What a callback makes of a direction with nothing under way. */
  lemma {:induction false} CallsStart(d: Device, lay: Layout, cs: seq<ApiCall>, k: Key)
    requires Configured(d, lay) && LegalCalls(lay, cs) && k in lay && k.isIn && k.n != 0 && Apart(lay, k)
    requires Idle(d, k) && d.inEp[k.n].maxPacket > 0 && AtMostOneTransfer(cs, k, |d.ram|)
    ensures RestingOrStarted(RunCalls(d, cs), lay, k)
    decreases cs
  {
    hide Configured, ViewOf, LegalCall, CallSpares, Call, JustStarted;
    if cs != [] {
      var c, d1 := cs[0], Call(d, cs[0]);
      assert c in cs;
      CallKeepsConfigured(d, lay, c);
      CallKeepsRam(d, c);
      if CallSpares(c, k) {
        CallSparesView(d, lay, c, k);
        IdleByView(d, d1, lay, k);
        SameSize(d, d1, lay, k);
        CallsStart(d1, lay, cs[1..], k);
      } else {
        StartedByCall(d, lay, k, c);
        RunCallsKeep(d1, lay, cs[1..], k);
        RunCallsKeepRam(d1, cs[1..]);
        StartedStays(d1, RunCalls(d1, cs[1..]), lay, k);
      }
    }
  }

  lemma StartedByCall(d: Device, lay: Layout, k: Key, c: ApiCall)
    requires Configured(d, lay) && k in lay && k.isIn && k.n != 0 && Apart(lay, k)
    requires Idle(d, k) && d.inEp[k.n].maxPacket > 0 && StartsTransfer(c, k) && c.buf + c.len < |d.ram|
    ensures JustStarted(Call(d, c), lay, k) && CanSend(Call(d, c), k.n)
  {
    hide Configured, JustStarted, Transmit;
    StartedByTransmit(d, lay, k, c.buf, c.len);
  }

  lemma SameSize(d: Device, d': Device, lay: Layout, k: Key)
    requires Configured(d, lay) && Configured(d', lay) && k in lay && k.isIn && ViewOf(d', lay, k) == ViewOf(d, lay, k)
    ensures d'.inEp[k.n].maxPacket == d.inEp[k.n].maxPacket
  {}

  lemma CallbackStarts(d: Device, e: Event, app: App, lay: Layout, k: Key)
    requires Configured(d, lay) && LegalApp(app, lay) && AppChains(app, k) && k in lay && k.isIn && k.n != 0 && Apart(lay, k)
    requires Idle(d, k) && d.inEp[k.n].maxPacket > 0
    ensures RestingOrStarted(Callback(d, e, app), lay, k)
  {
    hide ViewOf, LegalCalls, AtMostOneTransfer, Configured, Idle, RestingOrStarted, RunCalls;
    NoteSpared(d, e, lay, k);
    IdleByView(d, Note(d, e), lay, k);
    CallsStart(Note(d, e), lay, app(Note(d, e)), k);
  }

  /** The driver's turn after an acknowledgement: report the end, or arm the next packet. */
  lemma DriverMovesOn(d: Device, lay: Layout, k: Key, b: nat, user: seq<byte>, left: seq<seq<byte>>, app: App)
    requires Sending(d, lay, k, b, user, left) && d.reg[k.n].ctrTx && LegalApp(app, lay)
    ensures var d' := ServeIn(d, k.n, app);
      if left == [] then
        && Times(d'.log, DataIn(k.n)) == Times(d.log, DataIn(k.n)) + 1
        && (AppLeaves(app, k) ==> Configured(d', lay) && Idle(d', k))
        && (AppChains(app, k) ==> RestingOrStarted(d', lay, k))
      else Sending(d', lay, k, b, user, left) && Times(d'.log, DataIn(k.n)) == Times(d.log, DataIn(k.n))
  {
    hide GetHalf, Transmit, Callback, Times, Configured, ViewOf, FinishIn, Sending, Packets, LegalApp, AppLeaves, AppChains,
      RestingOrStarted;
    var n := k.n;
    Acknowledged(d, lay, k, b, user, left);
    var d3 := FinishIn(d, n);
    if left == [] {
      CallbackEffect(d3, DataIn(n), app);
      if AppLeaves(app, k) { IdleCallback(d3, DataIn(n), app, lay, k); }
      if AppChains(app, k) { CallbackStarts(d3, DataIn(n), app, lay, k); }
    } else {
      var off := d3.inEp[n].xferBuff - b;
      NextPacketEffect(d3, n, true, ContinueIn(n), b + off, d3.inEp[n].xferLen);
      NoteSpared(d3, ContinueIn(n), lay, k);
      TransmitArms(Note(d3, ContinueIn(n)), lay, n, b, user, off);
    }
  }

  /** When the application is told of the end, the pointer is behind its buffer and the count is the size of
      the packet sent last. */
  lemma ReportFollowsBuffer(d: Device, lay: Layout, k: Key, b: nat, user: seq<byte>, app: App) returns (at: Device)
    requires Sending(d, lay, k, b, user, []) && d.reg[k.n].ctrTx
    ensures ServeIn(d, k.n, app) == Callback(at, DataIn(k.n), app) && at.log == d.log && at.ram == d.ram
    ensures at.inEp[k.n] == d.inEp[k.n].(xferBuff := b + |user| - 1, xferCount := |PacketToSend(d, k.n)|)
    ensures !at.reg[k.n].ctrTx && at.reg[k.n].statTx == Nak
  {
    hide GetHalf, Capacity, EncodeRx, CopyHalves, Configured, FinishIn, Callback, Transmit, ViewOf;
    at := FinishIn(d, k.n);
    Acknowledged(d, lay, k, b, user, []);
    ConfiguredKey(d, lay, k);
    ViewFields(d, lay, k.n);
    AckView(d, lay, k.n);
    RecopyIsHarmless(AckTx(d, k.n), lay, k, b, user);
    AdvancedView(d, lay, k, b, user);
  }

  /** The state after the acknowledgement and before the dispatch: what is left to send is what the pointer
      has not passed. */
  lemma Acknowledged(d: Device, lay: Layout, k: Key, b: nat, user: seq<byte>, left: seq<seq<byte>>)
    requires Sending(d, lay, k, b, user, left) && d.reg[k.n].ctrTx
    ensures var d3 := FinishIn(d, k.n);
      && k in lay && k.isIn && k.n != 0 && Apart(lay, k) && Configured(d3, lay)
      && HoldsBuffer(d3, b, user) && d3.log == d.log && !d3.reg[k.n].ctrTx && d3.reg[k.n].statTx == Nak
      && var ep := d3.inEp[k.n];
      && b <= ep.xferBuff && ep.maxPacket > 0 && (left == [] <==> ep.xferLen == 0)
      && (left != [] ==> ep.xferBuff - b < |user| && ep.xferLen == |user| - 1 - (ep.xferBuff - b) &&
                         left == Packets(user[ep.xferBuff - b..|user| - 1], ep.maxPacket))
  {
    hide GetHalf, Capacity, EncodeRx, CopyHalves, Configured, ViewOf, FinishIn, ViewOk;
    ConfiguredKey(d, lay, k);
    ViewFields(d, lay, k.n);
    AckView(d, lay, k.n);
    var v := ViewOf(d, lay, k);
    var off, w := v.ep.xferBuff - b, CountField(v.count);
    assert Phase(v, false);
    RecopyIsHarmless(AckTx(d, k.n), lay, k, b, user);
    AdvancedView(d, lay, k, b, user);
    var rest := user[off..|user| - 1];
    if v.ep.xferLen == 0 {
      assert left == [];
    } else {
      assert |rest| > v.ep.maxPacket == w;
      assert rest[w..] == user[off + w..|user| - 1];
      assert left == Packets(rest[w..], w);
    }
  }

  /** After the acknowledgement the pointer has moved past the packet and nothing else has changed. */
  lemma AdvancedView(d: Device, lay: Layout, k: Key, b: nat, user: seq<byte>)
    requires Configured(d, lay) && k in lay && k.isIn && RecopyPacket(AckTx(d, k.n), k.n) == AckTx(d, k.n)
    ensures var d3 := FinishIn(d, k.n);
      var w := TxCount(d, k.n);
      && Configured(d3, lay) && d3.ram == d.ram && d3.log == d.log
      && !d3.reg[k.n].ctrTx && d3.reg[k.n].statTx == d.reg[k.n].statTx
      && d3.inEp[k.n] == d.inEp[k.n].(xferCount := w, xferBuff := d.inEp[k.n].xferBuff + w)
  {
    hide GetHalf, Capacity, EncodeRx, CopyHalves, RecopyPacket, ActedOn, ViewOk;
    FinishInActs(d, lay, k.n);
    ActedOnKeepsConfigured(d, FinishIn(d, k.n), lay, k);
  }

  lemma AckView(d: Device, lay: Layout, n: EpNum)
    requires Configured(d, lay) && Key(n, true) in lay
    ensures Configured(AckTx(d, n), lay)
    ensures ViewOf(AckTx(d, n), lay, Key(n, true)) == ViewOf(d, lay, Key(n, true)).(ctr := false)
  {
    hide GetHalf, Capacity, EncodeRx, ActedOn;
    var k := Key(n, true);
    assert ViewOk(ViewOf(d, lay, k), lay[k], k.isIn);
    ChangedOnlyRefl(d.pma, lay, k);
    var d' := AckTx(d, n);
    PlacedActs(d, d', lay, k, d.inEp[n], d'.reg[n]);
    ActedOnKeepsConfigured(d, d', lay, k);
  }

  // ---------- whole transfers ----------

  /** What the host received from endpoint n during a run, packet by packet. */
  function Wire(d: Device, ss: seq<Step>, app: App, n: EpNum): seq<seq<byte>>
    requires RunEnabled(d, ss, app)
    decreases ss
  {
    if ss == [] then []
    else (if ss[0] == HostIn(n) then [PacketToSend(d, n)] else []) + Wire(Next(d, ss[0], app), ss[1..], app, n)
  }

  lemma OtherStep(d: Device, s: Step, app: App, lay: Layout, k: Key, b: nat, user: seq<byte>, left: seq<seq<byte>>)
    requires Sending(d, lay, k, b, user, left) && LegalApp(app, lay) && AppSpares(app, k)
    requires Enabled(d, s) && LegalStep(lay, s) && StepSpares(d, s, k)
    requires HoldsBuffer(Next(d, s, app), b, user)
    ensures Sending(Next(d, s, app), lay, k, b, user, left)
    ensures Completions(Next(d, s, app), k) == Completions(d, k)
  {
    hide Next, LegalApp, AppSpares, Enabled, LegalStep, StepSpares, ViewOf, Configured, InProgress;
    StepSpared(d, s, app, lay, k);
    SparingStepReportsNothing(d, s, app, k);
  }

  lemma OwnTurn(d: Device, app: App, lay: Layout, k: Key, b: nat, user: seq<byte>, left: seq<seq<byte>>)
    requires Sending(d, lay, k, b, user, left) && LegalApp(app, lay) && AppSpares(app, k) && d.reg[k.n].ctrTx
    requires HoldsBuffer(ServeEndpoint(d, k.n, app), b, user)
    ensures var d' := ServeEndpoint(d, k.n, app);
      if left == [] then
        && Completions(d', k) == Completions(d, k) + 1
        && (AppLeaves(app, k) ==> Configured(d', lay) && Idle(d', k))
        && (AppChains(app, k) ==> RestingOrStarted(d', lay, k))
      else Sending(d', lay, k, b, user, left) && Completions(d', k) == Completions(d, k)
  {
    hide ServeOut, ServeIn, LegalApp, AppSpares, AppChains, RestingOrStarted, ViewOf, Configured, InProgress, Times;
    var n := k.n;
    var d1 := if d.reg[n].ctrRx then ServeOut(d, n, app) else d;
    ServeInKeepsRam(d1, n, app);
    if d.reg[n].ctrRx {
      FlaggedIsConfigured(d, lay, n);
      ServeOutSpared(d, n, app, lay, k);
      ServeOutOnce(d, n, app);
      ServedRxReportsNoIn(d, d1, n);
    }
    DriverMovesOn(d1, lay, k, b, user, left, app);
  }

  lemma ServedRxReportsNoIn(d: Device, d': Device, n: EpNum)
    requires Served(d, d', n, true, false)
    ensures Times(d'.log, DataIn(n)) == Times(d.log, DataIn(n)) && d'.reg[n].ctrTx == d.reg[n].ctrTx
  {
    hide Times;
    assert ConservedAt(d, d', n);
    TimesGrow(d.log, d'.log, DataIn(n));
    TimesGrow(d.log, d'.log, ContinueIn(n));
  }

  /** Every step of a run takes the next packet, or leaves the transfer where it was, or reports it
      done with nothing left to send. */
  lemma AnyStep(d: Device, s: Step, app: App, lay: Layout, k: Key, b: nat, user: seq<byte>, left: seq<seq<byte>>)
    requires Sending(d, lay, k, b, user, left) && LegalApp(app, lay) && AppSpares(app, k)
    requires Enabled(d, s) && CallsLeave([s], lay, k)
    requires HoldsBuffer(Next(d, s, app), b, user)
    ensures var d' := Next(d, s, app);
      if s == HostIn(k.n) then
        && |left| > 0 && PacketToSend(d, k.n) == left[0]
        && Sending(d', lay, k, b, user, left[1..]) && Completions(d', k) == Completions(d, k)
      else if Completions(d', k) == Completions(d, k) then Sending(d', lay, k, b, user, left)
      else
        && left == [] && Completions(d', k) == Completions(d, k) + 1
        && (AppLeaves(app, k) ==> Configured(d', lay) && Idle(d', k))
        && (AppChains(app, k) ==> RestingOrStarted(d', lay, k))
  {
    hide LegalApp, AppSpares, AppChains, RestingOrStarted, LegalStep, Sent, Call, CallSpares, ServeEndpoint, PacketToSend,
      CanReceive, Received, Sending, Completions;
    assert s in [s];
    SendingKey(d, lay, k, b, user, left);
    if s == HostIn(k.n) {
      HostTakesPacket(d, lay, k, b, user, left);
      SentLogsNothing(d, k);
    } else if s == InterruptTurn(k.n) && d.reg[k.n].ctrTx {
      OwnTurn(d, app, lay, k, b, user, left);
    } else {
      OtherStep(d, s, app, lay, k, b, user, left);
    }
  }

  lemma SentLogsNothing(d: Device, k: Key)
    ensures Completions(Sent(d, k.n), k) == Completions(d, k)
  {}

  lemma SendingKey(d: Device, lay: Layout, k: Key, b: nat, user: seq<byte>, left: seq<seq<byte>>)
    requires Sending(d, lay, k, b, user, left)
    ensures k.isIn && k.n != 0 && k in lay && Apart(lay, k)
    ensures d.reg[k.n].ctrTx || (CanSend(d, k.n) && |left| > 0)
  {
    hide Configured, ViewOf;
    ConfiguredKey(d, lay, k);
    ViewFields(d, lay, k.n);
  }

  /** Nobody writes the user's buffer until the transfer is reported done. */
  ghost predicate BufferStable(d: Device, ss: seq<Step>, app: App, k: Key, b: nat, user: seq<byte>)
    requires RunEnabled(d, ss, app)
    decreases ss
  {
    && HoldsBuffer(d, b, user)
    && (ss != [] ==>
          var d' := Next(d, ss[0], app);
          && HoldsBuffer(d', b, user)
          && (Completions(d', k) == Completions(d, k) ==> BufferStable(d', ss[1..], app, k, b, user)))
  }

  /** With nothing under way the host receives nothing. */
  lemma {:induction false} IdleWire(d: Device, ss: seq<Step>, app: App, k: Key)
    requires RunEnabled(d, ss, app) && RunSpares(d, ss, app, k) && k.isIn
    ensures Wire(d, ss, app, k.n) == []
    decreases ss
  {
    hide Next, Enabled;
    if ss != [] {
      assert ss[0] != HostIn(k.n);
      IdleWire(Next(d, ss[0], app), ss[1..], app, k);
    }
  }

  /** After the report: nothing more is sent and nothing more is reported, however long the run. */
  lemma AfterReport(d: Device, ss: seq<Step>, app: App, lay: Layout, k: Key)
    requires k in lay && k.isIn && k.n != 0 && Apart(lay, k) && LegalApp(app, lay) && AppSpares(app, k)
    requires AppLeaves(app, k) ==> Configured(d, lay) && Idle(d, k)
    requires RunEnabled(d, ss, app) && CallsLeave(ss, lay, k) && (ss == [] || AppLeaves(app, k))
    ensures Wire(d, ss, app, k.n) == [] && Completions(Run(d, ss, app), k) == Completions(d, k)
    ensures AppLeaves(app, k) ==> Idle(Run(d, ss, app), k)
  {
    hide Configured, LegalApp, AppSpares, AppLeaves, Completions, Idle, CallsLeave, Next, Enabled;
    if ss != [] {
      IdleRun(d, ss, app, lay, k);
      IdleWire(d, ss, app, k);
    }
  }

  lemma {:induction false} TransferRun(d: Device, ss: seq<Step>, app: App, lay: Layout, k: Key, b: nat, user: seq<byte>,
                                       left: seq<seq<byte>>)
    requires Sending(d, lay, k, b, user, left) && LegalApp(app, lay)
    requires RunEnabled(d, ss, app) && CallsLeave(ss, lay, k)
    requires BufferStable(d, ss, app, k, b, user) && OneTransfer(d, ss, app, k)
    ensures var d', w := Run(d, ss, app), Wire(d, ss, app, k.n);
      if Completions(d', k) == Completions(d, k)
      then |w| <= |left| && w == left[..|w|] && Sending(d', lay, k, b, user, left[|w|..])
      else w == left && Completions(d', k) == Completions(d, k) + 1 && (AppLeaves(app, k) ==> Idle(d', k))
    decreases ss
  {
    hide LegalApp, AppSpares, AppLeaves, Enabled, CallsLeave, OneTransfer, Sending, Completions, Next, PacketToSend,
      HoldsBuffer, Configured, Idle;
    if ss != [] {
      var s := ss[0];
      var d1 := Next(d, s, app);
      CallsLeaveParts(ss, lay, k);
      OneTransferStep(d, ss, app, k);
      AnyStep(d, s, app, lay, k, b, user, left);
      if s == HostIn(k.n) {
        TransferRun(d1, ss[1..], app, lay, k, b, user, left[1..]);
      } else if Completions(d1, k) == Completions(d, k) {
        TransferRun(d1, ss[1..], app, lay, k, b, user, left);
      } else {
        SendingKey(d, lay, k, b, user, left);
        AfterReport(d1, ss[1..], app, lay, k);
      }
    }
  }

  /** The stream theorem.  Start a transfer of len bytes on a single-buffered IN endpoint whose packet
      buffer is its own; then let the host, the other endpoints, the interrupt loop and the application
      do what they like for as long as they like, as long as calls leave this endpoint alone and nobody
      writes the buffer before the transfer is reported.  What the host has received is always a prefix
      of the buffer's packets; DataIn is reported at most once, and only when all of them have been
      received; until then the transfer can go on, and after that the endpoint stays silent. */
  lemma TransferDeliversBuffer(d0: Device, n: EpNum, buf: nat, len: nat, ss: seq<Step>, app: App, lay: Layout)
    requires n != 0 && Key(n, true) in lay && Apart(lay, Key(n, true)) && Configured(d0, lay) && LegalApp(app, lay)
    requires buf + len < |d0.ram| && d0.inEp[n].maxPacket > 0 && !d0.reg[n].ctrTx
    requires var d := Transmit(d0, n, buf, len);
      && RunEnabled(d, ss, app) && CallsLeave(ss, lay, Key(n, true)) && OneTransfer(d, ss, app, Key(n, true))
      && BufferStable(d, ss, app, Key(n, true), buf, d0.ram[buf..buf + len + 1])
    ensures var d := Transmit(d0, n, buf, len);
      var d', w := Run(d, ss, app), Wire(d, ss, app, n);
      var all := Packets(d0.ram[buf..buf + len], d0.inEp[n].maxPacket);
      var reports := Completions(d', Key(n, true)) - Completions(d, Key(n, true));
      && |w| <= |all| && w == all[..|w|]
      && 0 <= reports <= 1
      && (reports == 1 ==> w == all && (AppLeaves(app, Key(n, true)) ==> Idle(d', Key(n, true))))
      && (reports == 0 ==> d'.reg[n].ctrTx || (|w| < |all| && CanSend(d', n)))
  {
    hide Transmit, LegalApp, AppSpares, AppLeaves, CallsLeave, BufferStable, OneTransfer, RunEnabled, Run, Wire,
      Completions, Configured, Sending, Idle;
    var k := Key(n, true);
    var d := Transmit(d0, n, buf, len);
    var user := d0.ram[buf..buf + len + 1];
    var all := Packets(d0.ram[buf..buf + len], d0.inEp[n].maxPacket);
    TransmitStarts(d0, lay, n, buf, len);
    TransferRun(d, ss, app, lay, k, buf, user, all);
    var d', w := Run(d, ss, app), Wire(d, ss, app, n);
    if Completions(d', k) == Completions(d, k) {
      SendingKey(d', lay, k, buf, user, all[|w|..]);
    }
  }
}
