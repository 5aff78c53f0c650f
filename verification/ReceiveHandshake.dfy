/** The receive path between the USB interrupt and the main loop: one slot for a received frame and one
    receive credit.  The interrupt may fire between any two accesses of the main loop. */
module ReceiveHandshake {
  import opened PacketMemory
  import opened EcmReassembly

  type Frame = seq<byte>

  datatype Slot = Empty | Full(frame: Frame)

  /** Where the main loop stands.  `Locked`: inside the driver, the endpoint already valid again but the
      driver's lock not yet released.  `Storing`: about to store that its renewal was not refused. */
  datatype MainPc = Idle | Handling(frame: Frame) | Renewing | Locked | Storing

  /** A frame from the host, whether it was dropped, and where in the reassembly buffer its first chunk
      was put. */
  datatype Arrival = Arrival(frame: Frame, lost: bool, offset: nat)

  /** `armed`: the endpoint may receive.  `owed`: arming it was refused and is to be tried again.
      `offset`: where the next chunk will go.  `collected`: the chunks of the frame under way; its length
      is the reassembly index.  `firstAt`: where its first chunk was put.  `arrivals` and `handled` are
      histories. */
  datatype State = State(armed: bool, offset: nat, owed: bool, collected: Frame, firstAt: nat, slot: Slot, main: MainPc,
                         arrivals: seq<Arrival>, handled: seq<Frame>)

  datatype Step =
    | ChunkIn(data: Frame, hasBuffer: bool)
    | StartOfFrame
    | Take
    | Handle
    | Arm
    | Unlock
    | StoreFlag

  /** Configured by the host, nothing received yet. */
  const START := State(true, 0, false, [], 0, Empty, Idle, [], [])

  /** An interrupt's attempt to arm the endpoint at the reassembly index: the driver refuses it while the
      main loop holds the lock. */
  function Renew(s: State): State {
    if s.main == Locked then s.(armed := false, owed := true)
    else s.(armed := true, offset := |s.collected|, owed := false)
  }

  /** The class passes a complete frame to the callback: an occupied slot or a failed allocation loses
      the frame, and a failed allocation arms the endpoint again from inside the callback, when the
      reassembly index still is the length of the frame just lost. */
  function Callback(s: State, hasBuffer: bool): State {
    if s.slot.Full? then s
    else if !hasBuffer then Renew(s)
    else s.(slot := Full(s.collected))
  }

  /** A chunk is put behind those before it. */
  function Gathered(s: State, data: Frame): State {
    s.(armed := false, collected := s.collected + data, firstAt := if s.collected == [] then s.offset else s.firstAt)
  }

  /** The frame is complete: it is passed on, and then the index is reset. */
  function Completed(s: State, hasBuffer: bool): State {
    var a := Arrival(s.collected, !hasBuffer || s.slot.Full?, s.firstAt);
    Callback(s.(arrivals := s.arrivals + [a]), hasBuffer).(collected := [])
  }

  /** A chunk arrived: a short one completes the frame, a full one asks for more. */
  function Collect(s: State, data: Frame, hasBuffer: bool): State {
    if |data| < CHUNK then Completed(Gathered(s, data), hasBuffer) else Renew(Gathered(s, data))
  }

  predicate Enabled(s: State, t: Step) {
    match t
    case ChunkIn(data, _) => s.armed && |data| <= CHUNK
    case StartOfFrame => true
    case Take => s.main == Idle
    case Handle => s.main.Handling?
    case Arm => s.main == Renewing
    case Unlock => s.main == Locked
    case StoreFlag => s.main == Storing
  }

  function Next(s: State, t: Step): State
    requires Enabled(s, t)
  {
    match t
    case ChunkIn(data, hasBuffer) => Collect(s, data, hasBuffer)
    case StartOfFrame => if s.owed then Renew(s) else s
    case Take => if s.slot.Full? then s.(slot := Empty, main := Handling(s.slot.frame)) else s
    case Handle => s.(handled := s.handled + [s.main.frame], main := Renewing)
    case Arm => s.(armed := true, offset := |s.collected|, main := Locked)
    case Unlock => s.(main := Storing)
    case StoreFlag => s.(owed := false, main := Idle)
  }

  // ---------- one credit ----------

  function One(b: bool): nat {
    if b then 1 else 0
  }

  /** The receive credit, wherever it is: at the endpoint, owed to it, with a frame in the slot, or with
      the main loop. */
  function Credits(s: State): nat {
    One(s.armed) + One(s.owed) + One(s.slot.Full?) + One(s.main.Handling?) + One(s.main == Renewing)
  }

  /** The step that loses the credit: the main loop stores "not refused" over a refusal that an interrupt
      has noted since the endpoint was armed. */
  predicate Overwrites(s: State, t: Step) {
    t == StoreFlag && s.main == Storing && s.owed
  }

  /** A single credit stays a single credit through every step but that one, and through that one it is
      lost. */
  lemma CreditStep(s: State, t: Step)
    requires Credits(s) == 1 && Enabled(s, t)
    ensures Credits(Next(s, t)) == if Overwrites(s, t) then 0 else 1
  {}

  /** Without a credit nothing is ever received again. */
  lemma {:induction false} NoCreditNoFrames(s: State, ts: seq<Step>)
    requires Credits(s) == 0 && RunEnabled(s, ts)
    ensures Run(s, ts).arrivals == s.arrivals && Run(s, ts).collected == s.collected && Credits(Run(s, ts)) == 0
    decreases ts
  {
    if ts != [] {
      NoCreditNoFrames(Next(s, ts[0]), ts[1..]);
    }
  }

  // ---------- the stream of frames ----------

  function Kept(xs: seq<Arrival>): seq<Frame>
    decreases xs
  {
    if xs == [] then [] else (if xs[0].lost then [] else [xs[0].frame]) + Kept(xs[1..])
  }

  lemma {:induction false} KeptAppend(xs: seq<Arrival>, a: Arrival)
    ensures Kept(xs + [a]) == Kept(xs) + if a.lost then [] else [a.frame]
    decreases xs
  {
    if xs == [] {
      assert [a][1..] == [];
    } else {
      assert (xs + [a])[1..] == xs[1..] + [a];
      KeptAppend(xs[1..], a);
    }
  }

  /** Frames accepted and not yet handled. */
  function Waiting(s: State): seq<Frame> {
    (if s.main.Handling? then [s.main.frame] else []) + (if s.slot.Full? then [s.slot.frame] else [])
  }

  /** A frame that starts anywhere but at the beginning follows a lost one and starts where that ended. */
  predicate StartExplained(xs: seq<Arrival>, offset: nat) {
    offset == 0 || (xs != [] && xs[|xs| - 1].lost && offset == |xs[|xs| - 1].frame|)
  }

  predicate StartsExplained(xs: seq<Arrival>) {
    forall i :: 0 <= i < |xs| ==> StartExplained(xs[..i], xs[i].offset)
  }

  predicate Good(s: State) {
    && Credits(s) <= 1
    && (s.slot.Full? || s.main.Handling? || s.main == Renewing ==> s.collected == [])
    && Kept(s.arrivals) == s.handled + Waiting(s)
    && StartsExplained(s.arrivals)
    && (s.collected != [] ==> StartExplained(s.arrivals, s.firstAt))
    && (s.armed ==> if s.collected == [] then StartExplained(s.arrivals, s.offset) else s.offset == |s.collected|)
  }

  lemma StartsAppend(xs: seq<Arrival>, a: Arrival)
    requires StartsExplained(xs) && StartExplained(xs, a.offset)
    ensures StartsExplained(xs + [a])
  {
    hide StartExplained;
    var ys := xs + [a];
    forall i | 0 <= i < |ys| ensures StartExplained(ys[..i], ys[i].offset) {
      assert ys[..i] == xs[..i];
      assert xs[..|xs|] == xs;
    }
  }

  lemma StepGood(s: State, t: Step)
    requires Good(s) && Enabled(s, t)
    ensures Good(Next(s, t))
  {
    hide Kept, StartsExplained;
    if t.ChunkIn? {
      assert s.slot == Empty;
      var at := if s.collected == [] then s.offset else s.firstAt;
      var a := Arrival(s.collected + t.data, !t.hasBuffer, at);
      KeptAppend(s.arrivals, a);
      StartsAppend(s.arrivals, a);
    }
  }

  predicate RunEnabled(s: State, ts: seq<Step>)
    decreases ts
  {
    ts == [] || (Enabled(s, ts[0]) && RunEnabled(Next(s, ts[0]), ts[1..]))
  }

  function Run(s: State, ts: seq<Step>): State
    requires RunEnabled(s, ts)
    decreases ts
  {
    if ts == [] then s else Run(Next(s, ts[0]), ts[1..])
  }

  /** Some step of the run overwrote a refusal. */
  predicate Overwritten(s: State, ts: seq<Step>)
    requires RunEnabled(s, ts)
    decreases ts
  {
    ts != [] && (Overwrites(s, ts[0]) || Overwritten(Next(s, ts[0]), ts[1..]))
  }

  lemma {:induction false} RunGood(s: State, ts: seq<Step>)
    requires Good(s) && RunEnabled(s, ts)
    ensures Good(Run(s, ts))
    decreases ts
  {
    hide Good, Enabled, Next;
    if ts != [] {
      StepGood(s, ts[0]);
      RunGood(Next(s, ts[0]), ts[1..]);
    }
  }

  lemma {:induction false} RunCredits(s: State, ts: seq<Step>)
    requires Credits(s) == 1 && RunEnabled(s, ts)
    ensures Credits(Run(s, ts)) == if Overwritten(s, ts) then 0 else 1
    decreases ts
  {
    hide Credits, Enabled, Next, Overwrites;
    if ts != [] {
      CreditStep(s, ts[0]);
      if Overwrites(s, ts[0]) {
        NoCreditNoFrames(Next(s, ts[0]), ts[1..]);
      } else {
        RunCredits(Next(s, ts[0]), ts[1..]);
      }
    }
  }

  // ---------- what the host sent ----------

  /** A frame as the host sent it, and whether there was a buffer when its last chunk came. */
  datatype Sent = Sent(frame: Frame, hasBuffer: bool)

  /** The chunks of a run, cut behind each that is not full: the frames that are complete. */
  function SentFrames(ts: seq<Step>, open: Frame): seq<Sent>
    decreases ts
  {
    if ts == [] then []
    else if !ts[0].ChunkIn? then SentFrames(ts[1..], open)
    else if |ts[0].data| < CHUNK then [Sent(open + ts[0].data, ts[0].hasBuffer)] + SentFrames(ts[1..], [])
    else SentFrames(ts[1..], open + ts[0].data)
  }

  /** And what there is of the frame that is not. */
  function SentPart(ts: seq<Step>, open: Frame): Frame
    decreases ts
  {
    if ts == [] then open
    else if !ts[0].ChunkIn? then SentPart(ts[1..], open)
    else if |ts[0].data| < CHUNK then SentPart(ts[1..], [])
    else SentPart(ts[1..], open + ts[0].data)
  }

  /** The frames there was a buffer for. */
  function WithBuffer(fs: seq<Sent>): seq<Frame>
    decreases fs
  {
    if fs == [] then [] else (if fs[0].hasBuffer then [fs[0].frame] else []) + WithBuffer(fs[1..])
  }

  /** From the n-th on, the arrivals are these frames, lost for want of a buffer only. */
  predicate ArrivedAsSent(xs: seq<Arrival>, n: nat, fs: seq<Sent>) {
    |xs| == n + |fs| && forall i :: 0 <= i < |fs| ==> xs[n + i].frame == fs[i].frame && xs[n + i].lost == !fs[i].hasBuffer
  }

  /** One step: only a chunk adds to what was received, and only one that is not full completes a frame. */
  lemma StepReceives(s: State, t: Step)
    requires Good(s) && Enabled(s, t)
    ensures var s' := Next(s, t);
      if !t.ChunkIn? then s'.arrivals == s.arrivals && s'.collected == s.collected
      else if |t.data| >= CHUNK then s'.arrivals == s.arrivals && s'.collected == s.collected + t.data
      else
        && s'.collected == [] && |s'.arrivals| == |s.arrivals| + 1 && s.arrivals <= s'.arrivals
        && s'.arrivals[|s.arrivals|].frame == s.collected + t.data && s'.arrivals[|s.arrivals|].lost == !t.hasBuffer
  {
    hide Kept, StartsExplained, StartExplained;
  }

  lemma {:induction false} RunReceives(s: State, ts: seq<Step>)
    requires Good(s) && RunEnabled(s, ts)
    ensures var s' := Run(s, ts);
      && s.arrivals <= s'.arrivals && ArrivedAsSent(s'.arrivals, |s.arrivals|, SentFrames(ts, s.collected))
      && s'.collected == SentPart(ts, s.collected)
    decreases ts
  {
    hide Good, Enabled, Next;
    if ts != [] {
      var s1, t := Next(s, ts[0]), ts[0];
      StepGood(s, t);
      StepReceives(s, t);
      RunReceives(s1, ts[1..]);
      if t.ChunkIn? && |t.data| < CHUNK {
        var rest := SentFrames(ts[1..], []);
        var all := SentFrames(ts, s.collected);
        assert all == [Sent(s.collected + t.data, t.hasBuffer)] + rest;
        forall i | 0 <= i < |all|
          ensures var a := Run(s, ts).arrivals[|s.arrivals| + i]; a.frame == all[i].frame && a.lost == !all[i].hasBuffer
        {
          assert i > 0 ==> all[i] == rest[i - 1] && |s.arrivals| + i == |s1.arrivals| + (i - 1);
        }
      }
    }
  }

  lemma {:induction false} KeptAsSent(xs: seq<Arrival>, fs: seq<Sent>)
    requires ArrivedAsSent(xs, 0, fs)
    ensures Kept(xs) == WithBuffer(fs)
    decreases fs
  {
    if fs != [] {
      assert forall i :: 0 <= i < |fs[1..]| ==> xs[1..][i] == xs[0 + (i + 1)];
      KeptAsSent(xs[1..], fs[1..]);
    }
  }

  /** From the first configuration, in every interleaving of interrupt and main loop: the credit is there,
      in exactly one place, unless a refusal was overwritten; a chunk never arrives at an occupied slot, and
      lands behind the chunks before it; what has arrived is the chunks joined up to and with each that is
      not full, what is collected the chunks since; frames are handled whole and in the order the host sent
      them, each once, losing only those for which no buffer could be allocated, and at most one waits; and
      a frame starts at the beginning of the reassembly buffer unless the one before it was lost for want of
      a buffer. */
  lemma FramesInOrder(ts: seq<Step>)
    requires RunEnabled(START, ts)
    ensures var s := Run(START, ts);
      && Credits(s) == (if Overwritten(START, ts) then 0 else 1)
      && (s.armed ==> s.slot == Empty && (s.collected != [] ==> s.offset == |s.collected|))
      && ArrivedAsSent(s.arrivals, 0, SentFrames(ts, [])) && s.collected == SentPart(ts, [])
      && WithBuffer(SentFrames(ts, [])) == s.handled + Waiting(s) && |Waiting(s)| <= 1
      && StartsExplained(s.arrivals)
  {
    hide RunEnabled, Run, SentFrames, SentPart, WithBuffer, ArrivedAsSent, Overwritten;
    assert Good(START);
    RunReceives(START, ts);
    KeptAsSent(Run(START, ts).arrivals, SentFrames(ts, []));
    RunGood(START, ts);
    RunCredits(START, ts);
  }

  /** After a frame that found no buffer the next one is put behind it when the endpoint could be armed at
      once, and at the beginning when that was refused and a later start of frame makes up for it. */
  lemma LostFrameShiftsNext(s: State, data: Frame)
    requires s.armed && s.slot == Empty && |data| < CHUNK
    ensures var s' := Next(s, ChunkIn(data, false));
      && s'.collected == [] && s'.slot == Empty
      && if s.main != Locked then s'.armed && s'.offset == |s.collected| + |data|
         else !s'.armed && s'.owed && var s'' := Next(Next(s', Unlock), StartOfFrame); s''.armed && s''.offset == 0
  {}

  // ---------- how the credit gets lost ----------

  predicate Interrupt(t: Step) {
    t.ChunkIn? || t.StartOfFrame?
  }

  predicate AllInterrupts(ts: seq<Step>) {
    forall t :: t in ts ==> Interrupt(t)
  }

  /** A chunk whose interrupt asks for the endpoint to be armed again. */
  predicate AsksAgain(t: Step) {
    t.ChunkIn? && (|t.data| == CHUNK || !t.hasBuffer)
  }

  /** Under the lock every such request is refused and stays noted. */
  lemma {:induction false} LockedPhase(s: State, ts: seq<Step>)
    requires s.main == Locked && Credits(s) == 1 && RunEnabled(s, ts) && AllInterrupts(ts)
    ensures var s' := Run(s, ts);
      s'.main == Locked && Credits(s') == 1 && (s'.owed <==> s.owed || exists t :: t in ts && AsksAgain(t))
    decreases ts
  {
    if ts != [] {
      assert Interrupt(ts[0]);
      LockedStep(s, ts[0]);
      LockedPhase(Next(s, ts[0]), ts[1..]);
      assert forall t :: t in ts <==> t == ts[0] || t in ts[1..];
    }
  }

  lemma LockedStep(s: State, t: Step)
    requires s.main == Locked && Credits(s) == 1 && Enabled(s, t) && Interrupt(t)
    ensures var s' := Next(s, t);
      s'.main == Locked && Credits(s') == 1 && (s'.owed <==> s.owed || AsksAgain(t))
  {}

  /** After it the next start of frame makes up for the refusal, and nothing is refused any more. */
  lemma {:induction false} StoringPhase(s: State, ts: seq<Step>)
    requires s.main == Storing && Credits(s) == 1 && RunEnabled(s, ts) && AllInterrupts(ts)
    ensures var s' := Run(s, ts);
      s'.main == Storing && Credits(s') == 1 && (s'.owed <==> s.owed && StartOfFrame !in ts)
    decreases ts
  {
    if ts != [] {
      assert Interrupt(ts[0]);
      StoringStep(s, ts[0]);
      StoringPhase(Next(s, ts[0]), ts[1..]);
      assert forall t :: t in ts <==> t == ts[0] || t in ts[1..];
    }
  }

  lemma StoringStep(s: State, t: Step)
    requires s.main == Storing && Credits(s) == 1 && Enabled(s, t) && Interrupt(t)
    ensures var s' := Next(s, t);
      s'.main == Storing && Credits(s') == 1 && (s'.owed <==> s.owed && t != StartOfFrame)
  {}

  /** The main loop gives the credit back, interrupted wherever it can be: the credit is lost exactly when
      an interrupt asks for the endpoint between its becoming valid and the release of the lock, and no
      start of frame comes between that and the store. */
  lemma GivingBackLosesCredit(s: State, under: seq<Step>, after: seq<Step>)
    requires s.main == Renewing && Credits(s) == 1 && AllInterrupts(under) && AllInterrupts(after)
    requires var s1 := Next(s, Arm);
      RunEnabled(s1, under) && var s2 := Run(s1, under); Enabled(s2, Unlock) && RunEnabled(Next(s2, Unlock), after)
    ensures var s3 := Run(Next(Run(Next(s, Arm), under), Unlock), after);
      && Enabled(s3, StoreFlag)
      && (Credits(Next(s3, StoreFlag)) == 0 <==> (exists t :: t in under && AsksAgain(t)) && StartOfFrame !in after)
  {
    hide AsksAgain;
    var s1 := Next(s, Arm);
    LockedPhase(s1, under);
    var s2 := Next(Run(s1, under), Unlock);
    StoringPhase(s2, after);
    CreditStep(Run(s2, after), StoreFlag);
  }

  lemma Prepend(s: State, t: Step, ts: seq<Step>)
    requires Enabled(s, t) && RunEnabled(Next(s, t), ts)
    ensures RunEnabled(s, [t] + ts)
    ensures Overwritten(s, [t] + ts) <==> Overwrites(s, t) || Overwritten(Next(s, t), ts)
  {
    hide Enabled, Next, Overwrites;
    assert ([t] + ts)[1..] == ts;
  }

  /** A frame is received and handled, and the main loop is about to give the credit back. */
  lemma FirstFrameHandled() returns (s: State)
    ensures s == Next(Next(Next(START, ChunkIn([1], true)), Take), Handle)
    ensures s == State(false, 0, false, [], 0, Empty, Renewing, [Arrival([1], false, 0)], [[1]])
  {
    var frame: Frame := [1];
    assert [] + frame == frame;
    var a := Arrival(frame, false, 0);
    var s1 := Next(START, ChunkIn(frame, true));
    assert [] + [a] == [a];
    assert s1 == State(false, 0, false, [], 0, Full(frame), Idle, [a], []);
    var s2 := Next(s1, Take);
    assert s2 == State(false, 0, false, [], 0, Empty, Handling(frame), [a], []);
    s := Next(s2, Handle);
    assert [] + [frame] == [frame];
  }

  /** While the endpoint is armed for the next frame, that one arrives and finds no buffer. */
  lemma NextFrameFindsNoBuffer(s: State) returns (ts: seq<Step>)
    requires s == State(false, 0, false, [], 0, Empty, Renewing, [Arrival([1], false, 0)], [[1]])
    ensures RunEnabled(s, ts) && Overwritten(s, ts)
  {
    hide RunEnabled, Overwritten;
    var two := ChunkIn([2], false);
    var s1 := Next(s, Arm);
    var s2 := Next(s1, two);
    var s3 := Next(s2, Unlock);
    NoSteps(Next(s3, StoreFlag));
    Prepend(s3, StoreFlag, []);
    ts := [StoreFlag] + [];
    Prepend(s2, Unlock, ts);
    ts := [Unlock] + ts;
    Prepend(s1, two, ts);
    ts := [two] + ts;
    Prepend(s, Arm, ts);
    ts := [Arm] + ts;
  }

  /** It does happen, from the first configuration on. */
  lemma RefusalCanBeOverwritten() returns (ts: seq<Step>)
    ensures RunEnabled(START, ts) && Overwritten(START, ts)
  {
    hide RunEnabled, Overwritten;
    var one := ChunkIn([1], true);
    var s := FirstFrameHandled();
    ts := NextFrameFindsNoBuffer(s);
    Prepend(Next(Next(START, one), Take), Handle, ts);
    ts := [Handle] + ts;
    Prepend(Next(START, one), Take, ts);
    ts := [Take] + ts;
    Prepend(START, one, ts);
    ts := [one] + ts;
  }

  lemma NoSteps(s: State)
    ensures RunEnabled(s, []) && Run(s, []) == s
  {}

  // ---------- the host configures the device again ----------

  /** The class's initialisation, in the interrupt: it opens the endpoint and arms it, and clears the note
      of a refusal.  Neither the slot nor the reassembly index is touched.  Under the lock the driver
      refuses both calls. */
  function Reconfigured(s: State): State {
    if s.main == Locked then s.(offset := |s.collected|, owed := false)
    else s.(armed := true, offset := |s.collected|, owed := false)
  }

  /** A configuration brings a lost credit back and adds a second one when a frame is in the slot or with
      the main loop; it takes the credit away when it comes under the lock after a refusal. */
  lemma ReconfigurationCredits(s: State)
    requires Credits(s) <= 1
    ensures var c := Credits(Reconfigured(s));
      && (c == 2 <==> s.main != Locked && (s.slot.Full? || s.main.Handling? || s.main == Renewing))
      && (c == 0 <==> s.main == Locked && !s.armed && s.slot == Empty)
  {}

  /** What a second credit costs: a frame that completes at an occupied slot is dropped although there is a
      buffer for it, and then there is one credit again. */
  lemma SecondCreditCostsAFrame(s: State, t: Step)
    requires s.armed && s.slot.Full? && t.ChunkIn? && |t.data| < CHUNK
    ensures var s' := Next(s, t);
      && s'.arrivals == s.arrivals + [Arrival(s.collected + t.data, true, if s.collected == [] then s.offset else s.firstAt)]
      && Kept(s'.arrivals) == Kept(s.arrivals) && s'.slot == s.slot
      && Credits(s') == Credits(s) - 1
  {
    KeptAppend(s.arrivals, Arrival(s.collected + t.data, true, if s.collected == [] then s.offset else s.firstAt));
  }

  // ---------- the code ----------

  /** The shared variables of interrupt and main loop, the driver's lock among them.  `collected` stands
      for the bytes the host sent; what the reassembly buffer makes of them is EcmReassembly. */
  class Receiver {
    var armed: bool
    var offset: nat
    var owed: bool
    var locked: bool
    var index: nat
    var receivedFrame: Slot
    var collected: Frame
    ghost var firstAt: nat
    ghost var main: MainPc
    ghost var arrivals: seq<Arrival>
    ghost var handled: seq<Frame>

    constructor ()
      ensures Valid() && View() == START
    {
      armed, offset, owed, locked, index, receivedFrame, collected := true, 0, false, false, 0, Empty, [];
      firstAt, main, arrivals, handled := 0, Idle, [], [];
    }

    ghost function View(): State
      reads this
    {
      State(armed, offset, owed, collected, firstAt, receivedFrame, main, arrivals, handled)
    }

    ghost predicate Valid()
      reads this
    {
      index == |collected| && (locked <==> main == Locked)
    }

    /** usb_ecm_recv_renew, in the interrupt. */
    method Renewal()
      requires Valid() && !armed
      modifies `armed, `offset, `owed
      ensures Valid() && View() == Renew(old(View()))
    {
      owed := locked;
      if !owed {
        armed, offset := true, index;
      }
    }

    /** usb_ecm_recv_callback, in the interrupt. */
    method RecvCallback(hasBuffer: bool)
      requires Valid() && !armed
      modifies `armed, `offset, `owed, `receivedFrame
      ensures Valid() && View() == Callback(old(View()), hasBuffer)
    {
      if receivedFrame.Full? {
        return;
      }
      if !hasBuffer {
        Renewal();
        return;
      }
      receivedFrame := Full(collected);
    }

    /** The chunk is counted. */
    method Gather(data: Frame)
      requires Valid() && armed
      modifies `armed, `collected, `index, `firstAt
      ensures Valid() && View() == Gathered(old(View()), data) && !armed
    {
      firstAt := if collected == [] then offset else firstAt;
      collected := collected + data;
      armed := false;
      index := index + |data|;
    }

    /** The frame is passed to the callback before the index is reset. */
    method Complete(hasBuffer: bool)
      requires Valid() && !armed
      modifies `armed, `offset, `owed, `receivedFrame, `collected, `index, `arrivals
      ensures Valid() && View() == Completed(old(View()), hasBuffer)
    {
      arrivals := arrivals + [Arrival(collected, !hasBuffer || receivedFrame.Full?, firstAt)];
      RecvCallback(hasBuffer);
      index, collected := 0, [];
    }

    /** USBD_ECM_DataOut: the interrupt after a chunk. */
    method DataOut(data: Frame, hasBuffer: bool)
      requires Valid() && armed && |data| <= CHUNK
      modifies `armed, `offset, `owed, `receivedFrame, `collected, `index, `arrivals, `firstAt
      ensures Valid() && View() == Next(old(View()), ChunkIn(data, hasBuffer))
    {
      hide Gathered, Completed, Renew;
      Gather(data);
      if |data| < CHUNK {
        Complete(hasBuffer);
      } else {
        Renewal();
      }
    }

    /** The start-of-frame interrupt tries a refused arming again. */
    method Sof()
      requires Valid() && (owed ==> !armed)
      modifies `armed, `offset, `owed
      ensures Valid() && View() == Next(old(View()), StartOfFrame)
    {
      if owed {
        Renewal();
      }
    }

    /** The state is what the steps made of the start. */
    ghost predicate Follows(start: State, ts: seq<Step>)
      reads this
    {
      Valid() && RunEnabled(start, ts) && View() == Run(start, ts) && Good(View())
    }

    /** Nothing was handled since, and a frame that was in the slot is there. */
    ghost predicate Awaits(slot: Slot, before: seq<Frame>)
      reads this
    {
      handled == before && (slot.Full? ==> receivedFrame == slot)
    }

    /** Any number of interrupts. */
    method Interrupts(ghost start: State, ghost ts0: seq<Step>) returns (ghost ts: seq<Step>)
      requires Follows(start, ts0)
      modifies this
      ensures Follows(start, ts) && main == old(main) && Awaits(old(receivedFrame), old(handled))
    {
      hide RunEnabled, Run, Collect;
      ts := ts0;
      var n: nat := *;
      while n > 0
        invariant Follows(start, ts) && main == old(main) && Awaits(old(receivedFrame), old(handled))
        decreases n
      {
        n := n - 1;
        var isChunk: bool := *;
        if armed && isChunk {
          var data: Frame := *;
          var hasBuffer: bool := *;
          if |data| <= CHUNK {
            OneMore(start, ts, ChunkIn(data, hasBuffer));
            ts := ts + [ChunkIn(data, hasBuffer)];
            DataOut(data, hasBuffer);
          }
        } else {
          OneMore(start, ts, StartOfFrame);
          ts := ts + [StartOfFrame];
          Sof();
        }
      }
    }

    /** The part of service_traffic that runs with interrupts disabled. */
    method TakeFrame(ghost start: State, ghost ts0: seq<Step>) returns (frame: Slot, ghost ts: seq<Step>)
      requires Follows(start, ts0) && main == Idle
      modifies this
      ensures Follows(start, ts) && main == if frame.Full? then Handling(frame.frame) else Idle
      ensures frame == old(receivedFrame) && handled == old(handled)
    {
      hide Good, RunEnabled, Run;
      OneMore(start, ts0, Take);
      ts := ts0 + [Take];
      frame := receivedFrame;
      receivedFrame := Empty;
      if frame.Full? {
        main := Handling(frame.frame);
      }
    }

    /** The frame goes to the network stack and is freed. */
    method HandOver(ghost start: State, ghost ts0: seq<Step>) returns (ghost ts: seq<Step>)
      requires Follows(start, ts0) && main.Handling?
      modifies this
      ensures Follows(start, ts) && main == Renewing && handled == old(handled) + [old(main).frame]
    {
      hide Good, RunEnabled, Run;
      OneMore(start, ts0, Handle);
      ts := ts0 + [Handle];
      handled, main := handled + [main.frame], Renewing;
    }

    /** The driver under its lock, from the main loop: it makes the endpoint valid, and only then releases
        the lock. */
    method ArmUnderLock(ghost start: State, ghost ts0: seq<Step>) returns (ghost ts: seq<Step>)
      requires Follows(start, ts0) && main == Renewing
      modifies this
      ensures Follows(start, ts) && main == Storing && handled == old(handled)
    {
      hide Good, RunEnabled, Run;
      OneMore(start, ts0, Arm);
      ts := ts0 + [Arm];
      locked, armed, offset, main := true, true, index, Locked;
      ts := Interrupts(start, ts);
      OneMore(start, ts, Unlock);
      ts := ts + [Unlock];
      locked, main := false, Storing;
    }

    /** usb_ecm_recv_renew, from the main loop, which finds the driver unlocked because no interrupt leaves
        it locked. */
    method GiveBack(ghost start: State, ghost ts0: seq<Step>) returns (ghost ts: seq<Step>)
      requires Follows(start, ts0) && main == Renewing
      modifies this
      ensures Follows(start, ts) && main == Idle && handled == old(handled)
    {
      hide Good, RunEnabled, Run;
      var refused := locked;
      if !refused {
        ts := ArmUnderLock(start, ts0);
      }
      ts := Interrupts(start, ts);
      OneMore(start, ts, StoreFlag);
      ts := ts + [StoreFlag];
      owed, main := refused, Idle;
    }

    /** service_traffic, interrupted wherever interrupts are enabled.  It may be called again and again:
        the steps it and the interrupts took extend those before.  A frame in the slot is handled, one that
        comes in time perhaps, and no more than one. */
    method ServiceTraffic(ghost start: State, ghost ts0: seq<Step>) returns (ghost ts: seq<Step>)
      requires Follows(start, ts0) && main == Idle
      modifies this
      ensures Follows(start, ts) && main == Idle
      ensures old(receivedFrame).Full? ==> handled == old(handled) + [old(receivedFrame).frame]
      ensures old(handled) <= handled && |handled| <= |old(handled)| + 1
    {
      hide Good, RunEnabled, Run, Follows;
      ts := Interrupts(start, ts0);
      var frame;
      frame, ts := TakeFrame(start, ts);
      ts := Interrupts(start, ts);
      if frame.Empty? {
        return;
      }
      ts := HandOver(start, ts);
      ts := Interrupts(start, ts);
      ts := GiveBack(start, ts);
    }
  }

  lemma {:induction false} RunAppend(s: State, ts: seq<Step>, t: Step)
    requires RunEnabled(s, ts) && Enabled(Run(s, ts), t)
    ensures RunEnabled(s, ts + [t]) && Run(s, ts + [t]) == Next(Run(s, ts), t)
    decreases ts
  {
    hide Enabled, Next;
    if ts == [] {
      assert [t][1..] == [];
    } else {
      assert (ts + [t])[1..] == ts[1..] + [t];
      RunAppend(Next(s, ts[0]), ts[1..], t);
    }
  }

  lemma OneMore(start: State, ts: seq<Step>, t: Step)
    requires RunEnabled(start, ts) && Good(Run(start, ts)) && Enabled(Run(start, ts), t)
    ensures RunEnabled(start, ts + [t])
    ensures Run(start, ts + [t]) == Next(Run(start, ts), t) && Good(Run(start, ts + [t]))
  {
    hide Good, Enabled, Next;
    RunAppend(start, ts, t);
    StepGood(Run(start, ts), t);
  }
}
