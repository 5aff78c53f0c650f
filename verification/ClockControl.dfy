/** The clock driver at work: register writes and tick-bounded waits, with hardware acting between any two
    accesses.  `trace` records the registers after every write and every hardware move, so that a
    statement about all of it is a statement about every intermediate state. */
module ClockControl {
  import opened ClockTree

  datatype Status = Ok | Error | Timeout

  datatype HseState = HseOff | HseOn | HseBypass
  datatype LseState = LseOff | LseOn | LseBypass
  datatype Hsi14State = Hsi14Off | Hsi14On | Hsi14AdcControl

  /** An argument compared with ON and with OFF; the code accepts a value that is neither. */
  datatype OnOff = Off | On | Neither
  datatype PllState = PllNone | PllOff | PllOn | PllOther

  datatype OscInit = OscInit(
    useHse: bool, useHsi: bool, useLsi: bool, useLse: bool, useHsi14: bool, useHsi48: bool,
    hseState: HseState, hsiState: OnOff, hsiTrim: nat, lsiState: OnOff, lseState: LseState,
    hsi14State: Hsi14State, hsi14Trim: nat, hsi48State: OnOff,
    pllState: PllState, pllSource: PllSource, prediv: nibble, pllMul: nibble)

  datatype ClkInit = ClkInit(
    useHclk: bool, useSysclk: bool, usePclk1: bool,
    source: Source, ahbDivider: nat, apb1Divider: nat)

  datatype Flag = HseRdy | HsiRdy | LsiRdy | LseRdy | Hsi14Rdy | Hsi48Rdy | PllRdy | BackupWritable | SwitchedTo(s: Source)

  function ReadFlag(r: Registers, f: Flag): bool {
    match f
    case HseRdy => r.hse.ready
    case HsiRdy => r.hsi.ready
    case LsiRdy => r.lsi.ready
    case LseRdy => r.lse.ready
    case Hsi14Rdy => r.hsi14.ready
    case Hsi48Rdy => r.hsi48.ready
    case PllRdy => r.pll.ready
    case BackupWritable => r.backup.ready
    case SwitchedTo(s) => r.sws == s
  }

  /** The register writes of the driver. */
  datatype Write =
    | HseConfig(hseState: HseState)
    | HsiEnable(on: bool)
    | HsiTrim(trim: nat)
    | LsiEnable(on: bool)
    | BackupEnable
    | LseConfig(lseState: LseState)
    | Hsi14Adc(on: bool)
    | Hsi14Enable(on: bool)
    | Hsi14Trim(trim: nat)
    | Hsi48Enable(on: bool)
    | PllEnable(on: bool)
    | PllConfig(source: PllSource, prediv: nibble, mul: nibble)
    | SetAhbDivider(divider: nat)
    | SetApb1Divider(divider: nat)
    | SelectSource(sw: Source)
    | SetLatency(latency: nat)

  /** The byte that configures the external oscillator also holds the security-system bit. */
  function Put(r: Registers, w: Write): Registers {
    match w
    case HseConfig(s) => r.(hse := r.hse.(on := s != HseOff), hseBypass := s == HseBypass, css := false)
    case HsiEnable(on) => r.(hsi := r.hsi.(on := on))
    case HsiTrim(t) => r.(hsiTrim := t)
    case LsiEnable(on) => r.(lsi := r.lsi.(on := on))
    case BackupEnable => r.(backup := r.backup.(on := true))
    case LseConfig(s) => r.(lse := r.lse.(on := s != LseOff), lseBypass := s == LseBypass)
    case Hsi14Adc(on) => r.(hsi14Adc := on)
    case Hsi14Enable(on) => r.(hsi14 := r.hsi14.(on := on))
    case Hsi14Trim(t) => r.(hsi14Trim := t)
    case Hsi48Enable(on) => r.(hsi48 := r.hsi48.(on := on))
    case PllEnable(on) => r.(pll := r.pll.(on := on))
    case PllConfig(src, d, m) => r.(pllSource := src, prediv := d, pllMul := m)
    case SetAhbDivider(d) => r.(hpre := d)
    case SetApb1Divider(d) => r.(ppre := d)
    case SelectSource(src) => r.(sw := src)
    case SetLatency(l) => r.(latency := l)
  }

  /** The write leaves the running clock of a alone. */
  predicate Quiet(a: Registers, w: Write) {
    match w
    case HseConfig(_) => !FeedsHse(a)
    case HsiEnable(on) => !FeedsHsi(a) || on == a.hsi.on
    case Hsi48Enable(_) => !FeedsHsi48(a)
    case PllEnable(_) => a.sws != Pll
    case PllConfig(_, _, _) => a.sws != Pll
    case SetAhbDivider(_) => false
    case SetApb1Divider(_) => false
    case SelectSource(_) => false
    case SetLatency(_) => false
    case _ => true
  }

  /** The write does not put the PLL to use with an input the driver does not offer. */
  predicate FromApi(b: Registers, w: Write) {
    && (w.PllConfig? ==> w.source != HsiHalf)
    && (w == PllEnable(true) ==> b.pllSource != HsiHalf)
  }

  /** The running clock is undisturbed and, if the request offers the PLL no input but the driver's, the
      PLL's input is still one of them. */
  predicate Kept(api: bool, a: Registers, b: Registers) {
    SameChain(a, b) && (api && PllFromApi(a) ==> PllFromApi(b))
  }

  lemma QuietPut(api: bool, a: Registers, b: Registers, w: Write)
    requires Kept(api, a, b) && Quiet(a, w) && (api ==> FromApi(b, w))
    ensures Kept(api, a, Put(b, w))
  {}

  lemma PutConfig(a: Registers, b: Registers, w: Write)
    requires Config(a) == Config(b)
    ensures Config(Put(a, w)) == Config(Put(b, w))
  {
    hide Config, Put;
    PutAfterConfig(a, w);
    PutAfterConfig(b, w);
  }

  /** A write sets the same settings whether or not the ready flags are looked at. */
  lemma PutAfterConfig(a: Registers, w: Write)
    ensures Config(Put(a, w)) == Config(Put(Config(a), w))
  {
    hide Config, Put;
    match w
    case HseConfig(_) => LowEnableAfterConfig(a, w);
    case HsiEnable(_) => LowEnableAfterConfig(a, w);
    case LsiEnable(_) => LowEnableAfterConfig(a, w);
    case LseConfig(_) => LowEnableAfterConfig(a, w);
    case BackupEnable => HighEnableAfterConfig(a, w);
    case Hsi14Enable(_) => HighEnableAfterConfig(a, w);
    case Hsi48Enable(_) => HighEnableAfterConfig(a, w);
    case PllEnable(_) => HighEnableAfterConfig(a, w);
    case SetAhbDivider(_) => DividerAfterConfig(a, w);
    case SetApb1Divider(_) => DividerAfterConfig(a, w);
    case SelectSource(_) => SelectionAfterConfig(a, w);
    case SetLatency(_) => SelectionAfterConfig(a, w);
    case _ => SettingAfterConfig(a, w);
  }

  lemma LowEnableAfterConfig(a: Registers, w: Write)
    requires w.HseConfig? || w.HsiEnable? || w.LsiEnable? || w.LseConfig?
    ensures Config(Put(a, w)) == Config(Put(Config(a), w))
  {}

  lemma HighEnableAfterConfig(a: Registers, w: Write)
    requires w.BackupEnable? || w.Hsi14Enable? || w.Hsi48Enable? || w.PllEnable?
    ensures Config(Put(a, w)) == Config(Put(Config(a), w))
  {}

  lemma SettingAfterConfig(a: Registers, w: Write)
    requires w.HsiTrim? || w.Hsi14Adc? || w.Hsi14Trim? || w.PllConfig?
    ensures Config(Put(a, w)) == Config(Put(Config(a), w))
  {}

  lemma DividerAfterConfig(a: Registers, w: Write)
    requires w.SetAhbDivider? || w.SetApb1Divider?
    ensures Config(Put(a, w)) == Config(Put(Config(a), w))
  {}

  lemma SelectionAfterConfig(a: Registers, w: Write)
    requires w.SelectSource? || w.SetLatency?
    ensures Config(Put(a, w)) == Config(Put(Config(a), w))
  {}

  const TWO32 := 0x1_0000_0000
  const MAX_POLL_GAP := 0x8000_0000
  const HSE_TIMEOUT := 5000
  const LSE_TIMEOUT := 5000
  const CLOCKSWITCH_TIMEOUT := 5000
  const TIMEOUT_100 := 100

  // ---------- what the calls ask for ----------

  function HseApplied(r: Registers, s: HseState): Registers {
    if FeedsHse(r) then r else Put(r, HseConfig(s))
  }

  function HsiApplied(r: Registers, s: OnOff, trim: nat): Registers {
    if HsiProtected(r) then Put(r, HsiTrim(trim))
    else if s != Off then Put(Put(r, HsiEnable(true)), HsiTrim(trim))
    else Put(r, HsiEnable(false))
  }

  /** When the driver's check refuses to switch the internal oscillator. */
  predicate HsiProtected(r: Registers) {
    r.sws == Hsi || (r.sws == Pll && r.pllSource == HsiPrediv)
  }

  function LsiApplied(r: Registers, s: OnOff): Registers {
    Put(r, LsiEnable(s != Off))
  }

  function LseApplied(r: Registers, s: LseState): Registers {
    Put(Put(r, BackupEnable), LseConfig(s))
  }

  function Hsi14Applied(r: Registers, s: Hsi14State, trim: nat): Registers {
    match s
    case Hsi14On => Put(Put(Put(r, Hsi14Adc(false)), Hsi14Enable(true)), Hsi14Trim(trim))
    case Hsi14AdcControl => Put(Put(r, Hsi14Adc(true)), Hsi14Trim(trim))
    case Hsi14Off => Put(Put(r, Hsi14Adc(false)), Hsi14Enable(false))
  }

  function Hsi48Applied(r: Registers, s: OnOff): Registers {
    if FeedsHsi48(r) then r else Put(r, Hsi48Enable(s != Off))
  }

  function PllApplied(r: Registers, o: OscInit): Registers {
    match o.pllState
    case PllNone => r
    case PllOn => Put(Put(r, PllConfig(o.pllSource, o.prediv, o.pllMul)), PllEnable(true))
    case _ => Put(r, PllEnable(false))
  }

  function HighApplied(r: Registers, o: OscInit): Registers {
    var r1 := if o.useHse then HseApplied(r, o.hseState) else r;
    if o.useHsi then HsiApplied(r1, o.hsiState, o.hsiTrim) else r1
  }

  function LowApplied(r: Registers, o: OscInit): Registers {
    var r1 := if o.useLsi then LsiApplied(r, o.lsiState) else r;
    var r2 := if o.useLse then LseApplied(r1, o.lseState) else r1;
    if o.useHsi14 then Hsi14Applied(r2, o.hsi14State, o.hsi14Trim) else r2
  }

  function LastApplied(r: Registers, o: OscInit): Registers {
    PllApplied(if o.useHsi48 then Hsi48Applied(r, o.hsi48State) else r, o)
  }

  function RestApplied(r: Registers, o: OscInit): Registers {
    LastApplied(LowApplied(r, o), o)
  }

  /** The configuration after all stages a successful call goes through. */
  function Applied(r: Registers, o: OscInit): Registers {
    RestApplied(HighApplied(r, o), o)
  }

  /** The one case the driver's own checks miss: the internal oscillator is asked to go off while the PLL
      drives the system clock from its fixed half, a PLL input the checks do not know. */
  predicate StopsHsiUnderPll(r: Registers, o: OscInit) {
    o.useHsi && o.hsiState == Off && r.sws == Pll && r.pllSource == HsiHalf
  }

  /** A request that switches the PLL on names one of the inputs the driver offers. */
  predicate OffersDriverInput(o: OscInit) {
    o.pllState == PllOn ==> o.pllSource != HsiHalf
  }

  /** The PLL inputs the driver offers are those its checks know. */
  lemma ApiInputsAreChecked(r: Registers, o: OscInit)
    ensures PllFromApi(r) ==> !StopsHsiUnderPll(r, o)
  {}

  /** The fields a successful call leaves, one by one. */
  predicate Achieved(a: Registers, b: Registers, o: OscInit) {
    && HighAchieved(a, b, o) && LowAchieved(a, b, o) && PllAchieved(a, b, o)
    && b.sw == a.sw && b.sws == a.sws && b.hpre == a.hpre && b.ppre == a.ppre && b.latency == a.latency
  }

  predicate HighAchieved(a: Registers, b: Registers, o: OscInit) {
    var hse, hsi, hsi48 := o.useHse && !FeedsHse(a), o.useHsi && !HsiProtected(a), o.useHsi48 && !FeedsHsi48(a);
    && b.hse.on == (if hse then o.hseState != HseOff else a.hse.on)
    && b.hseBypass == (if hse then o.hseState == HseBypass else a.hseBypass)
    && b.css == (if hse then false else a.css)
    && b.hsi.on == (if hsi then o.hsiState != Off else a.hsi.on)
    && b.hsiTrim == (if o.useHsi && !(hsi && o.hsiState == Off) then o.hsiTrim else a.hsiTrim)
    && b.hsi48.on == (if hsi48 then o.hsi48State != Off else a.hsi48.on)
  }

  predicate LowAchieved(a: Registers, b: Registers, o: OscInit) {
    && b.lsi.on == (if o.useLsi then o.lsiState != Off else a.lsi.on)
    && b.backup.on == (o.useLse || a.backup.on)
    && b.lse.on == (if o.useLse then o.lseState != LseOff else a.lse.on)
    && b.lseBypass == (if o.useLse then o.lseState == LseBypass else a.lseBypass)
    && b.hsi14Adc == (if o.useHsi14 then o.hsi14State == Hsi14AdcControl else a.hsi14Adc)
    && b.hsi14.on == (if o.useHsi14 && o.hsi14State != Hsi14AdcControl then o.hsi14State == Hsi14On else a.hsi14.on)
    && b.hsi14Trim == (if o.useHsi14 && o.hsi14State != Hsi14Off then o.hsi14Trim else a.hsi14Trim)
  }

  predicate PllAchieved(a: Registers, b: Registers, o: OscInit) {
    && b.pll.on == (if o.pllState == PllNone then a.pll.on else o.pllState == PllOn)
    && (b.pllSource, b.prediv, b.pllMul) ==
       if o.pllState == PllOn then (o.pllSource, o.prediv, o.pllMul) else (a.pllSource, a.prediv, a.pllMul)
  }

  lemma AppliedFields(a: Registers, b: Registers, o: OscInit)
    requires Config(b) == Config(Applied(a, o))
    ensures Achieved(a, b, o)
  {
    hide Config, HighApplied, RestApplied, HighMoved, Achieved;
    HighFields(a, o);
    RestFields(a, HighApplied(a, o), o);
    AchievedByConfig(a, b, Applied(a, o), o);
  }

  lemma AchievedByConfig(a: Registers, b: Registers, c: Registers, o: OscInit)
    requires Config(b) == Config(c) && Achieved(a, c, o)
    ensures Achieved(a, b, o)
  {
    hide FeedsHse, FeedsHsi48, HsiProtected;
  }

  /** What the two high-speed stages leave. */
  predicate HighMoved(a: Registers, x: Registers, o: OscInit) {
    && x == a.(hse := x.hse, hseBypass := x.hseBypass, css := x.css, hsi := x.hsi, hsiTrim := x.hsiTrim)
    && HighAchieved(a, x, o.(useHsi48 := false))
  }

  /** What the three stages after them leave. */
  predicate LowMoved(a: Registers, x: Registers, o: OscInit) {
    && x == a.(lsi := x.lsi, lse := x.lse, lseBypass := x.lseBypass, backup := x.backup,
               hsi14 := x.hsi14, hsi14Adc := x.hsi14Adc, hsi14Trim := x.hsi14Trim)
    && LowAchieved(a, x, o)
  }

  predicate HseAchieved(a: Registers, x: Registers, o: OscInit) {
    var hse := o.useHse && !FeedsHse(a);
    && x == a.(hse := x.hse, hseBypass := x.hseBypass, css := x.css)
    && x.hse.on == (if hse then o.hseState != HseOff else a.hse.on)
    && x.hseBypass == (if hse then o.hseState == HseBypass else a.hseBypass)
    && x.css == (if hse then false else a.css)
  }

  predicate HsiAchieved(a: Registers, x: Registers, o: OscInit) {
    var hsi := o.useHsi && !HsiProtected(a);
    && x == a.(hsi := x.hsi, hsiTrim := x.hsiTrim)
    && x.hsi.on == (if hsi then o.hsiState != Off else a.hsi.on)
    && x.hsiTrim == (if o.useHsi && !(hsi && o.hsiState == Off) then o.hsiTrim else a.hsiTrim)
  }

  lemma HighFields(a: Registers, o: OscInit)
    ensures HighMoved(a, HighApplied(a, o), o)
  {
    hide HseApplied, HsiApplied, HseAchieved, HsiAchieved, HighMoved;
    var x := if o.useHse then HseApplied(a, o.hseState) else a;
    var y := if o.useHsi then HsiApplied(x, o.hsiState, o.hsiTrim) else x;
    assert HseAchieved(a, x, o) by {
      if o.useHse { HseFields(a, o); }
      else { NoHseFields(a, o); }
    }
    assert HsiAchieved(x, y, o) by {
      if o.useHsi { HsiFields(x, o); }
      else { NoHsiFields(x, o); }
    }
    HighTogether(a, x, y, o);
  }

  lemma HseFields(a: Registers, o: OscInit)
    requires o.useHse
    ensures HseAchieved(a, HseApplied(a, o.hseState), o)
  {}

  lemma NoHseFields(a: Registers, o: OscInit)
    requires !o.useHse
    ensures HseAchieved(a, a, o)
  {}

  lemma HsiFields(a: Registers, o: OscInit)
    requires o.useHsi
    ensures HsiAchieved(a, HsiApplied(a, o.hsiState, o.hsiTrim), o)
  {}

  lemma NoHsiFields(a: Registers, o: OscInit)
    requires !o.useHsi
    ensures HsiAchieved(a, a, o)
  {}

  lemma HighTogether(a: Registers, x: Registers, y: Registers, o: OscInit)
    requires HseAchieved(a, x, o) && HsiAchieved(x, y, o)
    ensures HighMoved(a, y, o)
  {
    hide FeedsHse, FeedsHsi48, HsiProtected;
    SameProtection(a, x);
  }

  lemma SameProtection(a: Registers, x: Registers)
    requires x.sws == a.sws && x.pllSource == a.pllSource
    ensures HsiProtected(x) == HsiProtected(a)
  {}

  lemma LsiLseFields(a: Registers, s: OnOff, e: LseState)
    ensures LsiApplied(a, s) == a.(lsi := Osc(s != Off, a.lsi.ready))
    ensures LseApplied(a, e) ==
      a.(backup := Osc(true, a.backup.ready), lse := Osc(e != LseOff, a.lse.ready), lseBypass := e == LseBypass)
  {}

  lemma Hsi14Fields(a: Registers, s: Hsi14State, trim: nat)
    ensures var x := Hsi14Applied(a, s, trim);
      && x == a.(hsi14 := x.hsi14, hsi14Adc := s == Hsi14AdcControl, hsi14Trim := if s != Hsi14Off then trim else a.hsi14Trim)
      && x.hsi14.on == if s == Hsi14AdcControl then a.hsi14.on else s == Hsi14On
  {}

  lemma LowFields(a: Registers, o: OscInit)
    ensures LowMoved(a, LowApplied(a, o), o)
  {
    hide LsiApplied, LseApplied, Hsi14Applied;
    var r1 := if o.useLsi then LsiApplied(a, o.lsiState) else a;
    var r2 := if o.useLse then LseApplied(r1, o.lseState) else r1;
    LsiLseFields(a, o.lsiState, o.lseState);
    LsiLseFields(r1, o.lsiState, o.lseState);
    Hsi14Fields(r2, o.hsi14State, o.hsi14Trim);
  }

  lemma Hsi48Fields(a: Registers, s: OnOff)
    ensures var x := Hsi48Applied(a, s);
      x == a.(hsi48 := x.hsi48) && x.hsi48.on == if FeedsHsi48(a) then a.hsi48.on else s != Off
  {}

  lemma PllFields(a: Registers, o: OscInit)
    ensures var x := PllApplied(a, o);
      x == a.(pll := x.pll, pllSource := x.pllSource, prediv := x.prediv, pllMul := x.pllMul) && PllAchieved(a, x, o)
  {}

  lemma RestFields(a: Registers, x: Registers, o: OscInit)
    requires HighMoved(a, x, o)
    ensures Achieved(a, RestApplied(x, o), o)
  {
    hide LowApplied, LsiApplied, LseApplied, Hsi14Applied, Hsi48Applied, PllApplied, FeedsHse, HsiProtected, HighMoved, LowMoved;
    var y := LowApplied(x, o);
    var z := if o.useHsi48 then Hsi48Applied(y, o.hsi48State) else y;
    LowFields(x, o);
    Hsi48Fields(y, o.hsi48State);
    PllFields(z, o);
    assert RestApplied(x, o) == PllApplied(z, o);
    Together(a, x, y, z, PllApplied(z, o), o);
  }

  lemma Together(a: Registers, x: Registers, y: Registers, z: Registers, b: Registers, o: OscInit)
    requires HighMoved(a, x, o) && LowMoved(x, y, o)
    requires z == y.(hsi48 := z.hsi48)
    requires z.hsi48.on == if o.useHsi48 && !FeedsHsi48(y) then o.hsi48State != Off else y.hsi48.on
    requires b == z.(pll := b.pll, pllSource := b.pllSource, prediv := b.prediv, pllMul := b.pllMul) && PllAchieved(z, b, o)
    ensures Achieved(a, b, o)
  {
    hide FeedsHse, HsiProtected;
  }

  // ---------- what was seen on the way ----------

  /** State i of the trace is the one the write left. */
  ghost predicate WroteAt(tr: seq<Registers>, i: int, w: Write) {
    0 < i < |tr| && tr[i] == Put(tr[i - 1], w)
  }

  /** Between lo and hi the write was done and then, or after it, a state was seen whose flag reads v. */
  ghost predicate Switched(tr: seq<Registers>, lo: int, hi: int, w: Write, f: Flag, v: bool) {
    exists i, j :: lo < i <= j < hi <= |tr| && WroteAt(tr, i, w) && ReadFlag(tr[j], f) == v
  }

  ghost predicate Saw(tr: seq<Registers>, lo: int, f: Flag, v: bool) {
    exists j :: 0 <= lo <= j < |tr| && ReadFlag(tr[j], f) == v
  }

  lemma SeenSwitched(tr: seq<Registers>, more: seq<Registers>, lo: int, w: Write, f: Flag, v: bool)
    requires 0 <= lo < |tr| - 1 && WroteAt(tr, |tr| - 1, w) && tr <= more && ReadFlag(more[|more| - 1], f) == v
    ensures Switched(more, lo, |more|, w, f, v)
  {
    hide Put, ReadFlag;
    assert WroteAt(more, |tr| - 1, w);
  }

  lemma SwitchedMore(tr: seq<Registers>, lo: int, hi: int, more: seq<Registers>, lo': int, hi': int, w: Write, f: Flag, v: bool)
    requires Switched(tr, lo, hi, w, f, v) && 0 <= lo' <= lo && hi <= hi' <= |more| && tr <= more
    ensures Switched(more, lo', hi', w, f, v)
  {
    hide Put, ReadFlag;
    var i, j :| lo < i <= j < hi <= |tr| && WroteAt(tr, i, w) && ReadFlag(tr[j], f) == v;
    assert WroteAt(more, i, w) && ReadFlag(more[j], f) == v;
  }

  lemma SawMore(tr: seq<Registers>, lo: int, more: seq<Registers>, lo': int, f: Flag, v: bool)
    requires Saw(tr, lo, f, v) && 0 <= lo' <= lo && tr <= more
    ensures Saw(more, lo', f, v)
  {
    hide ReadFlag;
    var j :| lo <= j < |tr| && ReadFlag(tr[j], f) == v;
    assert ReadFlag(more[j], f) == v;
  }

  /** What a successful stage went through: an oscillator in use is left alone unless it was seen not to
      be ready; any other is first seen off where the driver reconfigures it, and then as wanted. */
  ghost predicate HseDone(tr: seq<Registers>, lo: int, a: Registers, s: HseState) {
    if FeedsHse(a) then s != HseOn ==> Saw(tr, lo, HseRdy, false)
    else exists m: int :: lo <= m <= |tr| && Switched(tr, lo, m, HseConfig(HseOff), HseRdy, false)
                          && Switched(tr, m, |tr|, HseConfig(s), HseRdy, s != HseOff)
  }

  ghost predicate HsiDone(tr: seq<Registers>, lo: int, a: Registers, s: OnOff) {
    if HsiProtected(a) then s != On ==> Saw(tr, lo, HsiRdy, false)
    else Switched(tr, lo, |tr|, HsiEnable(s != Off), HsiRdy, s != Off)
  }

  ghost predicate LsiDone(tr: seq<Registers>, lo: int, s: OnOff) {
    Switched(tr, lo, |tr|, LsiEnable(s != Off), LsiRdy, s != Off)
  }

  ghost predicate LseDone(tr: seq<Registers>, lo: int, s: LseState) {
    exists k: int, m: int :: lo <= k <= m <= |tr| && Switched(tr, lo, k, BackupEnable, BackupWritable, true)
                             && Switched(tr, k, m, LseConfig(LseOff), LseRdy, false)
                             && Switched(tr, m, |tr|, LseConfig(s), LseRdy, s == LseOn)
  }

  ghost predicate Hsi14Done(tr: seq<Registers>, lo: int, s: Hsi14State) {
    s != Hsi14AdcControl ==> Switched(tr, lo, |tr|, Hsi14Enable(s == Hsi14On), Hsi14Rdy, s == Hsi14On)
  }

  ghost predicate Hsi48Done(tr: seq<Registers>, lo: int, a: Registers, s: OnOff) {
    if FeedsHsi48(a) then s != On ==> Saw(tr, lo, Hsi48Rdy, false)
    else Switched(tr, lo, |tr|, Hsi48Enable(s != Off), Hsi48Rdy, s != Off)
  }

  /** The PLL's settings are written after it was seen off and before it is switched on. */
  ghost predicate PllDone(tr: seq<Registers>, lo: int, o: OscInit) {
    match o.pllState
    case PllNone => true
    case PllOn =>
      exists m: int, k: int :: lo <= m < k < |tr| && Switched(tr, lo, m, PllEnable(false), PllRdy, false)
                               && WroteAt(tr, k, PllConfig(o.pllSource, o.prediv, o.pllMul))
                               && Switched(tr, k, |tr|, PllEnable(true), PllRdy, true)
    case _ => Switched(tr, lo, |tr|, PllEnable(false), PllRdy, false)
  }

  ghost predicate HighDone(tr: seq<Registers>, lo: int, a: Registers, o: OscInit) {
    (o.useHse ==> HseDone(tr, lo, a, o.hseState)) && (o.useHsi ==> HsiDone(tr, lo, a, o.hsiState))
  }

  ghost predicate LowDone(tr: seq<Registers>, lo: int, o: OscInit) {
    && (o.useLsi ==> LsiDone(tr, lo, o.lsiState)) && (o.useLse ==> LseDone(tr, lo, o.lseState))
    && (o.useHsi14 ==> Hsi14Done(tr, lo, o.hsi14State))
  }

  ghost predicate LastDone(tr: seq<Registers>, lo: int, a: Registers, o: OscInit) {
    (o.useHsi48 ==> Hsi48Done(tr, lo, a, o.hsi48State)) && PllDone(tr, lo, o)
  }

  ghost predicate RestDone(tr: seq<Registers>, lo: int, a: Registers, o: OscInit) {
    LowDone(tr, lo, o) && LastDone(tr, lo, a, o)
  }

  /** What a successful call went through. */
  ghost predicate Done(tr: seq<Registers>, lo: int, a: Registers, o: OscInit) {
    HighDone(tr, lo, a, o) && RestDone(tr, lo, a, o)
  }

  lemma HseDoneMore(tr: seq<Registers>, lo: int, more: seq<Registers>, lo': int, a: Registers, s: HseState)
    requires HseDone(tr, lo, a, s) && 0 <= lo' <= lo && tr <= more
    ensures HseDone(more, lo', a, s)
  {
    hide Switched, Saw, FeedsHse;
    if FeedsHse(a) {
      if s != HseOn { SawMore(tr, lo, more, lo', HseRdy, false); }
    } else {
      var m: int :| lo <= m <= |tr| && Switched(tr, lo, m, HseConfig(HseOff), HseRdy, false)
                    && Switched(tr, m, |tr|, HseConfig(s), HseRdy, s != HseOff);
      SwitchedMore(tr, lo, m, more, lo', m, HseConfig(HseOff), HseRdy, false);
      SwitchedMore(tr, m, |tr|, more, m, |more|, HseConfig(s), HseRdy, s != HseOff);
    }
  }

  lemma HsiDoneMore(tr: seq<Registers>, lo: int, more: seq<Registers>, lo': int, a: Registers, b: Registers, s: OnOff)
    requires HsiDone(tr, lo, a, s) && 0 <= lo' <= lo && tr <= more && HsiProtected(a) == HsiProtected(b)
    ensures HsiDone(more, lo', b, s)
  {
    hide Switched, Saw, HsiProtected;
    if HsiProtected(a) {
      if s != On { SawMore(tr, lo, more, lo', HsiRdy, false); }
    } else {
      SwitchedMore(tr, lo, |tr|, more, lo', |more|, HsiEnable(s != Off), HsiRdy, s != Off);
    }
  }

  lemma LseDoneMore(tr: seq<Registers>, lo: int, more: seq<Registers>, lo': int, s: LseState)
    requires LseDone(tr, lo, s) && 0 <= lo' <= lo && tr <= more
    ensures LseDone(more, lo', s)
  {
    hide Switched;
    var k: int, m: int :| lo <= k <= m <= |tr| && Switched(tr, lo, k, BackupEnable, BackupWritable, true)
                          && Switched(tr, k, m, LseConfig(LseOff), LseRdy, false)
                          && Switched(tr, m, |tr|, LseConfig(s), LseRdy, s == LseOn);
    SwitchedMore(tr, lo, k, more, lo', k, BackupEnable, BackupWritable, true);
    SwitchedMore(tr, k, m, more, k, m, LseConfig(LseOff), LseRdy, false);
    SwitchedMore(tr, m, |tr|, more, m, |more|, LseConfig(s), LseRdy, s == LseOn);
  }

  lemma LsiDoneMore(tr: seq<Registers>, lo: int, more: seq<Registers>, lo': int, s: OnOff)
    requires LsiDone(tr, lo, s) && 0 <= lo' <= lo && tr <= more
    ensures LsiDone(more, lo', s)
  {
    hide Switched;
    SwitchedMore(tr, lo, |tr|, more, lo', |more|, LsiEnable(s != Off), LsiRdy, s != Off);
  }

  lemma Hsi14DoneMore(tr: seq<Registers>, lo: int, more: seq<Registers>, lo': int, s: Hsi14State)
    requires Hsi14Done(tr, lo, s) && 0 <= lo' <= lo && tr <= more
    ensures Hsi14Done(more, lo', s)
  {
    hide Switched;
    if s != Hsi14AdcControl {
      SwitchedMore(tr, lo, |tr|, more, lo', |more|, Hsi14Enable(s == Hsi14On), Hsi14Rdy, s == Hsi14On);
    }
  }

  lemma Hsi48DoneMore(tr: seq<Registers>, lo: int, more: seq<Registers>, lo': int, a: Registers, b: Registers, s: OnOff)
    requires Hsi48Done(tr, lo, a, s) && 0 <= lo' <= lo && tr <= more && FeedsHsi48(a) == FeedsHsi48(b)
    ensures Hsi48Done(more, lo', b, s)
  {
    hide Switched, Saw, FeedsHsi48;
    if FeedsHsi48(a) {
      if s != On { SawMore(tr, lo, more, lo', Hsi48Rdy, false); }
    } else {
      SwitchedMore(tr, lo, |tr|, more, lo', |more|, Hsi48Enable(s != Off), Hsi48Rdy, s != Off);
    }
  }

  lemma HighDoneMore(tr: seq<Registers>, lo: int, more: seq<Registers>, a: Registers, o: OscInit)
    requires HighDone(tr, lo, a, o) && 0 <= lo && tr <= more
    ensures HighDone(more, lo, a, o)
  {
    hide HseDone, HsiDone;
    if o.useHse { HseDoneMore(tr, lo, more, lo, a, o.hseState); }
    if o.useHsi { HsiDoneMore(tr, lo, more, lo, a, a, o.hsiState); }
  }

  lemma LowDoneMore(tr: seq<Registers>, lo: int, more: seq<Registers>, lo': int, o: OscInit)
    requires LowDone(tr, lo, o) && 0 <= lo' <= lo && tr <= more
    ensures LowDone(more, lo', o)
  {
    hide LsiDone, LseDone, Hsi14Done;
    if o.useLsi { LsiDoneMore(tr, lo, more, lo', o.lsiState); }
    if o.useLse { LseDoneMore(tr, lo, more, lo', o.lseState); }
    if o.useHsi14 { Hsi14DoneMore(tr, lo, more, lo', o.hsi14State); }
  }

  lemma LastDoneFrom(tr: seq<Registers>, lo: int, lo': int, a: Registers, b: Registers, o: OscInit)
    requires LastDone(tr, lo, a, o) && 0 <= lo' <= lo && FeedsHsi48(a) == FeedsHsi48(b)
    ensures LastDone(tr, lo', b, o)
  {
    hide Hsi48Done, PllDone, FeedsHsi48;
    if o.useHsi48 { Hsi48DoneMore(tr, lo, tr, lo', a, b, o.hsi48State); }
    PllDoneFrom(tr, lo, lo', o);
  }

  lemma RestDoneFrom(tr: seq<Registers>, lo: int, lo': int, a: Registers, b: Registers, o: OscInit)
    requires RestDone(tr, lo, a, o) && 0 <= lo' <= lo && FeedsHsi48(a) == FeedsHsi48(b)
    ensures RestDone(tr, lo', b, o)
  {
    hide LowDone, LastDone, FeedsHsi48;
    LowDoneMore(tr, lo, tr, lo', o);
    LastDoneFrom(tr, lo, lo', a, b, o);
  }

  lemma PllDoneFrom(tr: seq<Registers>, lo: int, lo': int, o: OscInit)
    requires PllDone(tr, lo, o) && 0 <= lo' <= lo
    ensures PllDone(tr, lo', o)
  {
    hide Switched, WroteAt;
    if o.pllState == PllOn {
      var m: int, k: int :| lo <= m < k < |tr| && Switched(tr, lo, m, PllEnable(false), PllRdy, false)
                            && WroteAt(tr, k, PllConfig(o.pllSource, o.prediv, o.pllMul))
                            && Switched(tr, k, |tr|, PllEnable(true), PllRdy, true);
      SwitchedMore(tr, lo, m, tr, lo', m, PllEnable(false), PllRdy, false);
    } else if o.pllState != PllNone {
      SwitchedMore(tr, lo, |tr|, tr, lo', |tr|, PllEnable(false), PllRdy, false);
    }
  }

  /** The flag does not answer the enable bit. */
  predicate Unanswered(x: Osc) {
    x.ready != x.on
  }

  predicate LseUnanswered(r: Registers, s: LseState, waited: int) {
    || (waited > TIMEOUT_100 && !r.backup.ready)
    || (waited > LSE_TIMEOUT && (Unanswered(r.lse) || (s == LseBypass && r.lse.ready)))
  }

  /** The most a call waits for the oscillators it is asked for; besides that it polls, and each access may
      take as long as the longest gap. */
  function HighPatience(o: OscInit): nat {
    (if o.useHse then 2 * HSE_TIMEOUT else 0) + (if o.useHsi then TIMEOUT_100 else 0)
  }

  function LowPatience(o: OscInit): nat {
    (if o.useLsi then TIMEOUT_100 else 0) + (if o.useLse then TIMEOUT_100 + 2 * LSE_TIMEOUT else 0)
    + (if o.useHsi14 then TIMEOUT_100 else 0)
  }

  function LastPatience(o: OscInit): nat {
    (if o.useHsi48 then TIMEOUT_100 else 0) + (if o.pllState == PllNone then 0 else 2 * TIMEOUT_100)
  }

  function Patience(o: OscInit): nat {
    HighPatience(o) + LowPatience(o) + LastPatience(o)
  }

  /** A requested oscillator has not answered for longer than its stage waits. */
  predicate TimedOut(r: Registers, o: OscInit, waited: int) {
    || (o.useHse && waited > HSE_TIMEOUT && Unanswered(r.hse))
    || (o.useHsi && waited > TIMEOUT_100 && Unanswered(r.hsi))
    || (o.useLsi && waited > TIMEOUT_100 && Unanswered(r.lsi))
    || (o.useLse && LseUnanswered(r, o.lseState, waited))
    || (o.useHsi14 && waited > TIMEOUT_100 && Unanswered(r.hsi14))
    || (o.useHsi48 && waited > TIMEOUT_100 && Unanswered(r.hsi48))
    || (o.pllState != PllNone && waited > TIMEOUT_100 && Unanswered(r.pll))
  }

  lemma WaitedLonger(r: Registers, o: OscInit, waited: int, longer: int)
    requires TimedOut(r, o, waited) && waited <= longer
    ensures TimedOut(r, o, longer)
  {
    hide Unanswered;
  }

  /** The request would switch off or reconfigure what is in use. */
  predicate Refused(r: Registers, o: OscInit) {
    || (o.useHse && FeedsHse(r) && o.hseState != HseOn && r.hse.ready)
    || (o.useHsi && HsiProtected(r) && o.hsiState != On && r.hsi.ready)
    || (o.useHsi48 && FeedsHsi48(r) && o.hsi48State != On && r.hsi48.ready)
    || (o.pllState != PllNone && r.sws == Pll)
  }

  /** The enable bit a write leaves. */
  lemma EnabledBy(a: Registers, b: Registers, w: Write)
    requires Config(a) == Config(Put(b, w))
    ensures w.HseConfig? ==> a.hse.on == (w.hseState != HseOff)
    ensures w.HsiEnable? ==> a.hsi.on == w.on
    ensures w.LsiEnable? ==> a.lsi.on == w.on
    ensures w.LseConfig? ==> a.lse.on == (w.lseState != LseOff)
    ensures w.Hsi14Enable? ==> a.hsi14.on == w.on
    ensures w.Hsi48Enable? ==> a.hsi48.on == w.on
    ensures w.PllEnable? ==> a.pll.on == w.on
  {}

  class Rcc {
    var r: Registers
    /** Milliseconds since power-up; the driver sees them modulo 2^32. */
    var tick: nat
    /** Accesses still to come before the next tick. */
    var polls: nat
    ghost var trace: seq<Registers>

    constructor (initial: Registers)
      ensures r == initial && trace == []
    {
      r := initial;
      tick := 0;
      polls := 0;
      trace := [];
    }

    function GetTick(): nat
      reads this
    {
      tick % TWO32
    }

    /** Every state since position n of the trace, and the present one, is a hardware move away from a. */
    ghost predicate MovedFrom(a: Registers, n: nat)
      reads this
    {
      HwMoves(a, r) && n <= |trace| && forall i :: n <= i < |trace| ==> HwMoves(a, trace[i])
    }

    /** Every state since position n of the trace, and the present one, runs on a's clock. */
    ghost predicate Undisturbed(api: bool, a: Registers, n: nat)
      reads this
    {
      Kept(api, a, r) && n <= |trace| && forall i :: n <= i < |trace| ==> Kept(api, a, trace[i])
    }

    ghost predicate FlashSafeSince(n: nat)
      reads this
    {
      FlashSafe(r) && n <= |trace| && forall i :: n <= i < |trace| ==> FlashSafe(trace[i])
    }

    ghost predicate PllFromApiSince(n: nat)
      reads this
    {
      PllFromApi(r) && n <= |trace| && forall i :: n <= i < |trace| ==> PllFromApi(trace[i])
    }

    /** No more than these milliseconds have passed, and for each of so many accesses the longest gap. */
    ghost predicate Within(since: nat, ms: nat, accesses: nat)
      reads this`tick
    {
      since <= tick <= since + ms + accesses * MAX_POLL_GAP
    }

    /** Hardware acts and time passes. */
    method Hw()
      modifies this
      ensures HwMoves(old(r), r) && trace == old(trace) + [r] && Within(old(tick), 0, 1)
      ensures old(tick) < tick || polls < old(polls)
    {
      r := Answer(r);
      trace := trace + [r];
      if polls > 0 {
        polls := polls - 1;
      } else {
        var gap: nat := *;
        var next: nat := *;
        tick := tick + 1 + gap % MAX_POLL_GAP;
        polls := next;
      }
    }

    static method Settle(a: Osc) returns (b: Osc)
      ensures Settles(a, b)
    {
      var ready: bool := *;
      b := Osc(a.on, ready && (a.ready || a.on));
    }

    static method Answer(a: Registers) returns (b: Registers)
      ensures HwMoves(a, b)
    {
      hide Settles;
      var hse := Settle(a.hse);
      var hsi := Settle(a.hsi);
      var lsi := Settle(a.lsi);
      var lse := Settle(a.lse);
      var hsi14 := Settle(a.hsi14);
      var hsi48 := Settle(a.hsi48);
      var backup := Settle(a.backup);
      var pll := Settle(a.pll);
      var switches: bool := *;
      b := a.(hse := hse, hsi := hsi, lsi := lsi, lse := lse, hsi14 := hsi14, hsi48 := hsi48, backup := backup,
              pll := pll, sws := if switches then a.sw else a.sws);
    }

    /** The wait loop of the driver: until the flag reads v, or until more than `timeout` milliseconds of
        the wrapping tick have passed; in the latter case that much time has truly passed. */
    method WaitFor(f: Flag, v: bool, timeout: nat) returns (ok: bool)
      requires timeout < MAX_POLL_GAP
      modifies this
      ensures MovedFrom(old(r), |old(trace)|) && old(trace) <= trace && Within(old(tick), timeout, 1)
      ensures if ok then ReadFlag(r, f) == v else tick > old(tick) + timeout && ReadFlag(r, f) != v
      ensures if trace == old(trace) then r == old(r) else trace[|trace| - 1] == r
    {
      hide HwMoves, ReadFlag;
      ghost var t0 := tick;
      HwMovesRefl(r);
      var tickstart := GetTick();
      while ReadFlag(r, f) != v
        invariant MovedFrom(old(r), |old(trace)|) && old(trace) <= trace
        invariant if trace == old(trace) then r == old(r) else trace[|trace| - 1] == r
        invariant t0 <= tick <= t0 + timeout + MAX_POLL_GAP
        decreases t0 + timeout + MAX_POLL_GAP - tick, polls
      {
        var elapsed := (GetTick() - tickstart) % TWO32;
        assert elapsed == tick - t0 by { Elapsed(t0, tick); }
        if elapsed > timeout {
          return false;
        }
        ghost var before := r;
        Hw();
        HwMovesTrans(old(r), before, r);
      }
      return true;
    }

    // ---------- steps that leave the running clock alone ----------

    /** A write, after whatever hardware did since the last access. */
    method Do(w: Write) returns (ghost mid: Registers)
      modifies this
      ensures HwMoves(old(r), mid) && r == Put(mid, w) && trace == old(trace) + [mid, r] && Within(old(tick), 0, 1)
    {
      Hw();
      mid := r;
      r := Put(r, w);
      trace := trace + [r];
    }

    method DoQuietly(ghost api: bool, ghost a: Registers, ghost n: nat, w: Write)
      requires a.sw == a.sws && Undisturbed(api, a, n) && Quiet(a, w) && (api ==> FromApi(r, w))
      modifies this
      ensures Undisturbed(api, a, n) && old(trace) <= trace && Within(old(tick), 0, 1)
      ensures Config(r) == Config(Put(old(r), w))
      ensures |trace| == |old(trace)| + 2 && trace[|trace| - 1] == r && WroteAt(trace, |trace| - 1, w)
    {
      hide HwMoves, Kept, Config, Put, Quiet;
      ghost var mid := Do(w);
      MoveKeeps(api, a, old(r), mid);
      QuietPut(api, a, mid, w);
      PutConfig(old(r), mid, w);
    }

    method WaitQuietly(ghost api: bool, ghost a: Registers, ghost n: nat, f: Flag, v: bool, timeout: nat) returns (ok: bool)
      requires a.sw == a.sws && Undisturbed(api, a, n) && timeout < MAX_POLL_GAP
      modifies this
      ensures Undisturbed(api, a, n) && old(trace) <= trace && Within(old(tick), timeout, 1)
      ensures HwMoves(old(r), r) && Config(r) == Config(old(r))
      ensures if ok then ReadFlag(r, f) == v else tick > old(tick) + timeout && ReadFlag(r, f) != v
      ensures if trace == old(trace) then r == old(r) else trace[|trace| - 1] == r
    {
      hide HwMoves, Kept, Config, ReadFlag;
      ok := WaitFor(f, v, timeout);
      MoveKeeps(api, a, old(r), r);
      forall i | n <= i < |trace| ensures Kept(api, a, trace[i]) {
        if i < |old(trace)| {
          assert trace[i] == old(trace)[i];
        } else {
          MoveKeeps(api, a, old(r), trace[i]);
        }
      }
    }

    /** A hardware move before a flag is looked at. */
    method Observe(ghost api: bool, ghost a: Registers, ghost n: nat)
      requires a.sw == a.sws && Undisturbed(api, a, n)
      modifies this
      ensures Undisturbed(api, a, n) && trace == old(trace) + [r] && Within(old(tick), 0, 1) && Config(r) == Config(old(r))
    {
      hide HwMoves, Kept, Config;
      Hw();
      MoveKeeps(api, a, old(r), r);
    }

    /** A write and the wait for the flag to answer it. */
    method SwitchQuietly(ghost api: bool, ghost a: Registers, ghost n: nat, w: Write, f: Flag, v: bool, timeout: nat)
      returns (ok: bool)
      requires a.sw == a.sws && Undisturbed(api, a, n) && Quiet(a, w) && (api ==> FromApi(r, w)) && timeout < MAX_POLL_GAP
      modifies this
      ensures Undisturbed(api, a, n) && old(trace) <= trace && Within(old(tick), timeout, 2)
      ensures Config(r) == Config(Put(old(r), w))
      ensures ok ==> Switched(trace, |old(trace)|, |trace|, w, f, v)
      ensures !ok ==> tick > old(tick) + timeout && ReadFlag(r, f) != v
    {
      hide HwMoves, Kept, Config, Put, Quiet, ReadFlag, FromApi;
      DoQuietly(api, a, n, w);
      ghost var written := trace;
      ok := WaitQuietly(api, a, n, f, v, timeout);
      if ok {
        SeenSwitched(written, trace, |old(trace)|, w, f, v);
      }
    }

    // ---------- the stages of HAL_RCC_OscConfig ----------

    method ConfigureHse(ghost api: bool, ghost a: Registers, ghost n: nat, s: HseState) returns (status: Status)
      requires a.sw == a.sws && Undisturbed(api, a, n)
      modifies this
      ensures Undisturbed(api, a, n) && old(trace) <= trace && Within(old(tick), 2 * HSE_TIMEOUT, 4)
      ensures status == Ok ==> Config(r) == Config(HseApplied(old(r), s)) && HseDone(trace, |old(trace)|, old(r), s)
      ensures status == Error ==> FeedsHse(r) && s != HseOn && r.hse.ready
      ensures status == Timeout ==> tick > old(tick) + HSE_TIMEOUT && Unanswered(r.hse)
    {
      hide Kept, Config, Put, Switched, FeedsHse;
      Feeding(api, a, r);
      if FeedsHse(r) {
        Observe(api, a, n);
        Feeding(api, a, r);
        assert !r.hse.ready ==> Saw(trace, |old(trace)|, HseRdy, false) by {
          assert ReadFlag(trace[|old(trace)|], HseRdy) == r.hse.ready;
        }
        return if r.hse.ready && s != HseOn then Error else Ok;
      }
      assert Quiet(a, HseConfig(HseOff)) && Quiet(a, HseConfig(s));
      var ok := SwitchQuietly(api, a, n, HseConfig(HseOff), HseRdy, false, HSE_TIMEOUT);
      EnabledBy(r, old(r), HseConfig(HseOff));
      if !ok {
        return Timeout;
      }
      ghost var mid := r;
      ghost var off := trace;
      PutConfig(r, Put(old(r), HseConfig(HseOff)), HseConfig(s));
      PutOver(old(r), s);
      ok := SwitchQuietly(api, a, n, HseConfig(s), HseRdy, s != HseOff, HSE_TIMEOUT);
      EnabledBy(r, mid, HseConfig(s));
      SwitchedMore(off, |old(trace)|, |off|, trace, |old(trace)|, |off|, HseConfig(HseOff), HseRdy, false);
      return if ok then Ok else Timeout;
    }

    /** `b` and `m` say from where on the running clock is undisturbed again: from the start, unless the
        call switches off the oscillator under the PLL. */
    method ConfigureHsi(ghost api: bool, ghost a: Registers, ghost n: nat, s: OnOff, trim: nat)
      returns (status: Status, ghost b: Registers, ghost m: nat)
      requires a.sw == a.sws && Undisturbed(api, a, n) && (FeedsHsi(a) ==> a.hsi.on)
      modifies this
      ensures old(trace) <= trace && b.sw == b.sws && Undisturbed(api, b, m) && Within(old(tick), TIMEOUT_100, 3)
      ensures if s == Off && FeedsHsi(a) && !HsiProtected(a) then FeedsHsi(b) && !b.hsi.on else b == a && m == n
      ensures b.sws == a.sws
      ensures status == Ok ==> Config(r) == Config(HsiApplied(old(r), s, trim)) && HsiDone(trace, |old(trace)|, old(r), s)
      ensures status == Error ==> HsiProtected(r) && s != On && r.hsi.ready
      ensures status == Timeout ==> tick > old(tick) + TIMEOUT_100 && Unanswered(r.hsi)
    {
      hide Kept, Config, Put, Switched, Saw, Unanswered;
      Feeding(api, a, r);
      b, m := a, n;
      if HsiProtected(r) {
        status := CalibrateHsi(api, a, n, s, trim);
      } else if s != Off {
        status := StartHsi(api, a, n, trim);
      } else {
        status, b, m := StopHsi(api, a, n);
      }
    }

    method CalibrateHsi(ghost api: bool, ghost a: Registers, ghost n: nat, s: OnOff, trim: nat) returns (status: Status)
      requires a.sw == a.sws && Undisturbed(api, a, n) && HsiProtected(r)
      modifies this
      ensures Undisturbed(api, a, n) && old(trace) <= trace && Within(old(tick), 0, 2) && status != Timeout
      ensures status == Ok ==> Config(r) == Config(Put(old(r), HsiTrim(trim)))
      ensures status == Ok && s != On ==> Saw(trace, |old(trace)|, HsiRdy, false)
      ensures status == Error ==> HsiProtected(r) && s != On && r.hsi.ready
    {
      hide Kept, Config, Put, HsiProtected;
      Feeding(api, a, r);
      Observe(api, a, n);
      Feeding(api, a, r);
      if r.hsi.ready && s != On {
        return Error;
      }
      ghost var seen := trace;
      assert !r.hsi.ready ==> Saw(seen, |old(trace)|, HsiRdy, false) by {
        assert ReadFlag(seen[|old(trace)|], HsiRdy) == r.hsi.ready;
      }
      PutConfig(r, old(r), HsiTrim(trim));
      DoQuietly(api, a, n, HsiTrim(trim));
      if s != On {
        SawMore(seen, |old(trace)|, trace, |old(trace)|, HsiRdy, false);
      }
      return Ok;
    }

    method StartHsi(ghost api: bool, ghost a: Registers, ghost n: nat, trim: nat) returns (status: Status)
      requires a.sw == a.sws && Undisturbed(api, a, n) && Quiet(a, HsiEnable(true))
      modifies this
      ensures Undisturbed(api, a, n) && old(trace) <= trace && Within(old(tick), TIMEOUT_100, 3) && status != Error
      ensures status == Ok ==> Config(r) == Config(Put(Put(old(r), HsiEnable(true)), HsiTrim(trim)))
      ensures status == Ok ==> Switched(trace, |old(trace)|, |trace|, HsiEnable(true), HsiRdy, true)
      ensures status == Timeout ==> tick > old(tick) + TIMEOUT_100 && Unanswered(r.hsi)
    {
      hide Kept, Config, Put, Quiet, Switched;
      var ok := SwitchQuietly(api, a, n, HsiEnable(true), HsiRdy, true, TIMEOUT_100);
      EnabledBy(r, old(r), HsiEnable(true));
      if !ok {
        return Timeout;
      }
      ghost var on := trace;
      PutConfig(r, Put(old(r), HsiEnable(true)), HsiTrim(trim));
      assert Quiet(a, HsiTrim(trim)) by { AlwaysQuiet(a, HsiTrim(trim)); }
      DoQuietly(api, a, n, HsiTrim(trim));
      SwitchedMore(on, |old(trace)|, |on|, trace, |old(trace)|, |trace|, HsiEnable(true), HsiRdy, true);
      return Ok;
    }

    method StopHsi(ghost api: bool, ghost a: Registers, ghost n: nat) returns (status: Status, ghost b: Registers, ghost m: nat)
      requires a.sw == a.sws && Undisturbed(api, a, n) && !HsiProtected(a)
      modifies this
      ensures old(trace) <= trace && b.sw == b.sws && Undisturbed(api, b, m)
      ensures Within(old(tick), TIMEOUT_100, 2) && status != Error
      ensures if FeedsHsi(a) then FeedsHsi(b) && !b.hsi.on else b == a && m == n
      ensures b.sws == a.sws
      ensures status == Ok ==> Config(r) == Config(Put(old(r), HsiEnable(false)))
      ensures status == Ok ==> Switched(trace, |old(trace)|, |trace|, HsiEnable(false), HsiRdy, false)
      ensures status == Timeout ==> tick > old(tick) + TIMEOUT_100 && Unanswered(r.hsi)
    {
      hide Config, HwMoves, Switched;
      ghost var mid := Do(HsiEnable(false));
      ghost var written := trace;
      MoveKeeps(api, a, old(r), mid);
      PutConfig(old(r), mid, HsiEnable(false));
      if FeedsHsi(a) {
        b, m := r, |trace|;
      } else {
        b, m := a, n;
      }
      var ok := WaitQuietly(api, b, m, HsiRdy, false, TIMEOUT_100);
      EnabledBy(r, mid, HsiEnable(false));
      if ok {
        SeenSwitched(written, trace, |old(trace)|, HsiEnable(false), HsiRdy, false);
      }
      status := if ok then Ok else Timeout;
    }

    method ConfigureLsi(ghost api: bool, ghost a: Registers, ghost n: nat, s: OnOff) returns (status: Status)
      requires a.sw == a.sws && Undisturbed(api, a, n)
      modifies this
      ensures Undisturbed(api, a, n) && old(trace) <= trace && Within(old(tick), TIMEOUT_100, 2) && status != Error
      ensures status == Ok ==> Config(r) == Config(LsiApplied(old(r), s)) && LsiDone(trace, |old(trace)|, s)
      ensures status == Timeout ==> tick > old(tick) + TIMEOUT_100 && Unanswered(r.lsi)
    {
      hide Kept, Config, Put, Switched;
      var ok := SwitchQuietly(api, a, n, LsiEnable(s != Off), LsiRdy, s != Off, TIMEOUT_100);
      EnabledBy(r, old(r), LsiEnable(s != Off));
      return if ok then Ok else Timeout;
    }

    method ConfigureLse(ghost api: bool, ghost a: Registers, ghost n: nat, s: LseState) returns (status: Status)
      requires a.sw == a.sws && Undisturbed(api, a, n)
      modifies this
      ensures Undisturbed(api, a, n) && old(trace) <= trace
      ensures Within(old(tick), TIMEOUT_100 + 2 * LSE_TIMEOUT, 6) && status != Error
      ensures status == Ok ==> Config(r) == Config(LseApplied(old(r), s)) && LseDone(trace, |old(trace)|, s)
      ensures status == Timeout ==> LseUnanswered(r, s, tick - old(tick))
    {
      hide Kept, Config, Put, Switched;
      ghost var n0 := |trace|;
      var ok := SwitchQuietly(api, a, n, BackupEnable, BackupWritable, true, TIMEOUT_100);
      if !ok {
        return Timeout;
      }
      ghost var writable := trace;
      ghost var mid := r;
      ghost var r1 := Put(old(r), BackupEnable);
      PutConfig(r, r1, LseConfig(LseOff));
      ok := SwitchQuietly(api, a, n, LseConfig(LseOff), LseRdy, false, LSE_TIMEOUT);
      EnabledBy(r, mid, LseConfig(LseOff));
      if !ok {
        return Timeout;
      }
      ghost var off := trace;
      mid := r;
      PutConfig(r, Put(r1, LseConfig(LseOff)), LseConfig(s));
      PutOverLse(r1, s);
      ok := SwitchQuietly(api, a, n, LseConfig(s), LseRdy, s == LseOn, LSE_TIMEOUT);
      EnabledBy(r, mid, LseConfig(s));
      SwitchedMore(writable, n0, |writable|, trace, n0, |writable|, BackupEnable, BackupWritable, true);
      SwitchedMore(off, |writable|, |off|, trace, |writable|, |off|, LseConfig(LseOff), LseRdy, false);
      return if ok then Ok else Timeout;
    }

    method ConfigureHsi14(ghost api: bool, ghost a: Registers, ghost n: nat, s: Hsi14State, trim: nat) returns (status: Status)
      requires a.sw == a.sws && Undisturbed(api, a, n)
      modifies this
      ensures Undisturbed(api, a, n) && old(trace) <= trace && Within(old(tick), TIMEOUT_100, 4) && status != Error
      ensures status == Ok ==> Config(r) == Config(Hsi14Applied(old(r), s, trim)) && Hsi14Done(trace, |old(trace)|, s)
      ensures status == Timeout ==> tick > old(tick) + TIMEOUT_100 && Unanswered(r.hsi14)
    {
      hide Kept, Config, Put, Switched;
      ghost var n0 := |trace|;
      ghost var r1 := Put(old(r), Hsi14Adc(s == Hsi14AdcControl));
      DoQuietly(api, a, n, Hsi14Adc(s == Hsi14AdcControl));
      if s != Hsi14AdcControl {
        PutConfig(r, r1, Hsi14Enable(s == Hsi14On));
        r1 := Put(r1, Hsi14Enable(s == Hsi14On));
        ghost var mid, lo := r, |trace|;
        var ok := SwitchQuietly(api, a, n, Hsi14Enable(s == Hsi14On), Hsi14Rdy, s == Hsi14On, TIMEOUT_100);
        EnabledBy(r, mid, Hsi14Enable(s == Hsi14On));
        if !ok {
          return Timeout;
        }
        SwitchedMore(trace, lo, |trace|, trace, n0, |trace|, Hsi14Enable(s == Hsi14On), Hsi14Rdy, s == Hsi14On);
      }
      ghost var on := trace;
      if s != Hsi14Off {
        PutConfig(r, r1, Hsi14Trim(trim));
        DoQuietly(api, a, n, Hsi14Trim(trim));
      }
      if s != Hsi14AdcControl {
        SwitchedMore(on, n0, |on|, trace, n0, |trace|, Hsi14Enable(s == Hsi14On), Hsi14Rdy, s == Hsi14On);
      }
      return Ok;
    }

    method ConfigureHsi48(ghost api: bool, ghost a: Registers, ghost n: nat, s: OnOff) returns (status: Status)
      requires a.sw == a.sws && Undisturbed(api, a, n)
      modifies this
      ensures Undisturbed(api, a, n) && old(trace) <= trace && Within(old(tick), TIMEOUT_100, 2)
      ensures status == Ok ==> Config(r) == Config(Hsi48Applied(old(r), s)) && Hsi48Done(trace, |old(trace)|, old(r), s)
      ensures status == Error ==> FeedsHsi48(r) && s != On && r.hsi48.ready
      ensures status == Timeout ==> tick > old(tick) + TIMEOUT_100 && Unanswered(r.hsi48)
    {
      hide Kept, Config, Put, Switched, FeedsHsi48;
      Feeding(api, a, r);
      if FeedsHsi48(r) {
        Observe(api, a, n);
        Feeding(api, a, r);
        assert !r.hsi48.ready ==> Saw(trace, |old(trace)|, Hsi48Rdy, false) by {
          assert ReadFlag(trace[|old(trace)|], Hsi48Rdy) == r.hsi48.ready;
        }
        return if r.hsi48.ready && s != On then Error else Ok;
      }
      var ok := SwitchQuietly(api, a, n, Hsi48Enable(s != Off), Hsi48Rdy, s != Off, TIMEOUT_100);
      EnabledBy(r, old(r), Hsi48Enable(s != Off));
      return if ok then Ok else Timeout;
    }

    method ConfigurePll(ghost api: bool, ghost a: Registers, ghost n: nat, o: OscInit) returns (status: Status)
      requires a.sw == a.sws && Undisturbed(api, a, n) && (api ==> OffersDriverInput(o))
      modifies this
      ensures Undisturbed(api, a, n) && old(trace) <= trace && Within(old(tick), 2 * TIMEOUT_100, 5)
      ensures status == Ok ==> Config(r) == Config(PllApplied(old(r), o)) && PllDone(trace, |old(trace)|, o)
      ensures status == Error <==> o.pllState != PllNone && a.sws == Pll
      ensures o.pllState == PllNone ==> tick == old(tick)
      ensures status == Error ==> r == old(r) && r.sws == Pll
      ensures status == Timeout ==> tick > old(tick) + TIMEOUT_100 && Unanswered(r.pll) && o.pllState != PllNone
    {
      hide Kept, Config, Put, Switched, WroteAt;
      Feeding(api, a, r);
      if o.pllState == PllNone {
        return Ok;
      }
      if r.sws == Pll {
        return Error;
      }
      var ok := SwitchQuietly(api, a, n, PllEnable(false), PllRdy, false, TIMEOUT_100);
      EnabledBy(r, old(r), PllEnable(false));
      if !ok {
        return Timeout;
      }
      if o.pllState == PllOn {
        ghost var off := trace;
        var w := PllConfig(o.pllSource, o.prediv, o.pllMul);
        PutOverPll(old(r), w);
        ghost var k;
        ok, k := StartPll(api, a, n, w, Put(old(r), PllEnable(false)));
        SwitchedMore(off, |old(trace)|, |off|, trace, |old(trace)|, |off|, PllEnable(false), PllRdy, false);
        return if ok then Ok else Timeout;
      }
      return Ok;
    }

    method StartPll(ghost api: bool, ghost a: Registers, ghost n: nat, w: Write, ghost x: Registers)
      returns (ok: bool, ghost k: int)
      requires a.sw == a.sws && Undisturbed(api, a, n) && a.sws != Pll && w.PllConfig? && (api ==> w.source != HsiHalf)
      requires Config(r) == Config(x)
      modifies this
      ensures Undisturbed(api, a, n) && old(trace) <= trace && Within(old(tick), TIMEOUT_100, 3)
      ensures ok ==> Config(r) == Config(Put(Put(x, w), PllEnable(true)))
      ensures ok ==> |old(trace)| < k < |trace| && WroteAt(trace, k, w)
      ensures ok ==> Switched(trace, k, |trace|, PllEnable(true), PllRdy, true)
      ensures !ok ==> tick > old(tick) + TIMEOUT_100 && Unanswered(r.pll)
    {
      hide Kept, Config, Put, Switched;
      PutConfig(r, x, w);
      DoQuietly(api, a, n, w);
      k := |trace| - 1;
      ghost var mid, lo := r, |trace|;
      PutConfig(r, Put(x, w), PllEnable(true));
      SameSource(r, Put(x, w));
      PutSource(x, w);
      ok := SwitchQuietly(api, a, n, PllEnable(true), PllRdy, true, TIMEOUT_100);
      EnabledBy(r, mid, PllEnable(true));
      if ok {
        SwitchedMore(trace, lo, |trace|, trace, k, |trace|, PllEnable(true), PllRdy, true);
      }
    }

    /** The external and the internal high-speed oscillator. */
    method ConfigureHigh(ghost api: bool, o: OscInit)
      returns (status: Status, ghost pastHse: bool, ghost a: Registers, ghost n: nat)
      requires r.sw == r.sws && (FeedsHsi(r) ==> r.hsi.on)
      modifies this
      ensures old(trace) <= trace && a.sw == a.sws && a.sws == old(r).sws && Undisturbed(api, a, n)
      ensures !StopsHsiUnderPll(old(r), o) ==> a == old(r) && n == |old(trace)|
      ensures !pastHse ==> a == old(r) && n == |old(trace)|
      ensures StopsHsiUnderPll(old(r), o) && pastHse ==> FeedsHsi(a) && !a.hsi.on
      ensures status == Ok || !o.useHse ==> pastHse
      ensures status == Ok ==> Config(r) == Config(HighApplied(old(r), o)) && HighDone(trace, |old(trace)|, old(r), o)
      ensures status == Error ==> Refused(r, o)
      ensures status == Timeout ==> TimedOut(r, o, tick - old(tick))
      ensures Within(old(tick), HighPatience(o), 7)
    {
      hide SameChain, Kept, Config, Put, HwMoves, HseApplied, HsiApplied, HseDone, HsiDone, FeedsHse, Unanswered,
        LseUnanswered, FeedsHsi48, LsiDone, LseDone, Hsi14Done, Hsi48Done, PllDone;
      a, n, pastHse, status := r, |trace|, !o.useHse, Ok;
      KeptRefl(api, a);
      if o.useHse {
        status := ConfigureHse(api, a, n, o.hseState);
        if status != Ok {
          return;
        }
        pastHse := true;
      }
      if o.useHsi {
        ghost var x, seen := if o.useHse then HseApplied(old(r), o.hseState) else old(r), trace;
        StageConfig(r, x, o);
        Feeding(api, a, r);
        ghost var mid := r;
        status, a, n := ConfigureHsi(api, a, n, o.hsiState, o.hsiTrim);
        if status == Ok {
          if o.useHse { HseDoneMore(seen, |old(trace)|, trace, |old(trace)|, old(r), o.hseState); }
          HsiDoneMore(trace, |seen|, trace, |old(trace)|, mid, old(r), o.hsiState);
        }
      }
    }

    /** The low-speed oscillators and the converter's. */
    method ConfigureLow(ghost api: bool, ghost a: Registers, ghost n: nat, o: OscInit, ghost x: Registers)
      returns (status: Status)
      requires a.sw == a.sws && Undisturbed(api, a, n) && Config(r) == Config(x)
      modifies this
      ensures Undisturbed(api, a, n) && old(trace) <= trace && Within(old(tick), LowPatience(o), 12) && status != Error
      ensures status == Ok ==> Config(r) == Config(LowApplied(x, o)) && LowDone(trace, |old(trace)|, o)
      ensures status == Timeout ==> TimedOut(r, o, tick - old(tick))
    {
      hide Kept, Config, Put, LsiApplied, LseApplied, Hsi14Applied, LsiDone, LseDone, Hsi14Done, Unanswered;
      ghost var y, n0 := x, |trace|;
      if o.useLsi {
        StageConfig(r, y, o);
        y := LsiApplied(y, o.lsiState);
        status := ConfigureLsi(api, a, n, o.lsiState);
        if status != Ok {
          return;
        }
      }
      ghost var seen1 := trace;
      if o.useLse {
        StageConfig(r, y, o);
        y := LseApplied(y, o.lseState);
        status := ConfigureLse(api, a, n, o.lseState);
        if status != Ok {
          return;
        }
      }
      ghost var seen2 := trace;
      if o.useHsi14 {
        StageConfig(r, y, o);
        status := ConfigureHsi14(api, a, n, o.hsi14State, o.hsi14Trim);
        if status != Ok {
          return;
        }
        Hsi14DoneMore(trace, |seen2|, trace, n0, o.hsi14State);
      }
      if o.useLsi { LsiDoneMore(seen1, n0, trace, n0, o.lsiState); }
      if o.useLse { LseDoneMore(seen2, |seen1|, trace, n0, o.lseState); }
      status := Ok;
    }

    /** The 48 MHz oscillator and the PLL. */
    method ConfigureLast(ghost api: bool, ghost a: Registers, ghost n: nat, o: OscInit, ghost x: Registers)
      returns (status: Status)
      requires a.sw == a.sws && Undisturbed(api, a, n) && (api ==> OffersDriverInput(o)) && Config(r) == Config(x)
      modifies this
      ensures Undisturbed(api, a, n) && old(trace) <= trace && Within(old(tick), LastPatience(o), 7)
      ensures status == Ok ==> Config(r) == Config(LastApplied(x, o)) && LastDone(trace, |old(trace)|, old(r), o)
      ensures status == Error ==> Refused(r, o)
      ensures status == Timeout ==> TimedOut(r, o, tick - old(tick))
      ensures a.sws == Pll && o.pllState != PllNone ==> status != Ok
    {
      hide Kept, Config, Put, Hsi48Applied, PllApplied, Hsi48Done, PllDone, Unanswered, LseUnanswered, FeedsHse, FeedsHsi48,
        HsiProtected;
      ghost var y, n0 := x, |trace|;
      if o.useHsi48 {
        StageConfig(r, y, o);
        y := Hsi48Applied(y, o.hsi48State);
        status := ConfigureHsi48(api, a, n, o.hsi48State);
        if status != Ok {
          return;
        }
      }
      ghost var seen := trace;
      StageConfig(r, y, o);
      status := ConfigurePll(api, a, n, o);
      if status == Ok {
        if o.useHsi48 { Hsi48DoneMore(seen, n0, trace, n0, old(r), old(r), o.hsi48State); }
        PllDoneFrom(trace, |seen|, n0, o);
      }
    }

    /** The stages after the internal oscillator's. */
    method ConfigureRest(ghost api: bool, ghost a: Registers, ghost n: nat, o: OscInit, ghost x: Registers)
      returns (status: Status)
      requires a.sw == a.sws && Undisturbed(api, a, n) && (api ==> OffersDriverInput(o)) && Config(r) == Config(x)
      modifies this
      ensures Undisturbed(api, a, n) && old(trace) <= trace && Within(old(tick), LowPatience(o) + LastPatience(o), 19)
      ensures status == Ok ==> Config(r) == Config(RestApplied(x, o)) && RestDone(trace, |old(trace)|, old(r), o)
      ensures status == Error ==> Refused(r, o)
      ensures status == Timeout ==> TimedOut(r, o, tick - old(tick))
      ensures a.sws == Pll && o.pllState != PllNone ==> status != Ok
    {
      hide Kept, Config, LowApplied, LastApplied, LowDone, LastDone, TimedOut, Refused, FeedsHse, FeedsHsi48, HsiProtected,
        LowPatience, LastPatience;
      ghost var n0 := |trace|;
      Feeding(api, a, r);
      status := ConfigureLow(api, a, n, o, x);
      if status != Ok {
        return;
      }
      ghost var seen, mid, since := trace, r, tick;
      Feeding(api, a, r);
      status := ConfigureLast(api, a, n, o, LowApplied(x, o));
      if status == Ok {
        LowDoneMore(seen, n0, trace, n0, o);
        LastDoneFrom(trace, |seen|, n0, mid, old(r), o);
      } else if status == Timeout {
        WaitedLonger(r, o, tick - since, tick - old(tick));
      }
    }

    /** HAL_RCC_OscConfig, with no clock switch pending and the running clock's internal oscillator
        enabled.  Whatever the request, the readiness timing and the way out, the running clock is
        undisturbed in every intermediate state, unless the request is the one the checks miss and the
        external oscillator's stage was passed; then the oscillator under the PLL is off.  `pastHse` says
        that stage was passed.  With a PLL input the driver itself selected, which every call that offers
        no other keeps, that request does not exist. */
    method OscConfig(o: OscInit) returns (status: Status, ghost pastHse: bool)
      requires r.sw == r.sws && (FeedsHsi(r) ==> r.hsi.on)
      modifies this
      ensures old(trace) <= trace
      ensures !StopsHsiUnderPll(old(r), o) || !pastHse ==>
        Undisturbed(OffersDriverInput(o), old(r), |old(trace)|) && RealFrequency(r, r.sws) == RealFrequency(old(r), old(r).sws)
      ensures StopsHsiUnderPll(old(r), o) && pastHse ==> FeedsHsi(r) && !r.hsi.on
      ensures PllFromApi(old(r)) ==>
        !StopsHsiUnderPll(old(r), o) && (OffersDriverInput(o) ==> PllFromApiSince(|old(trace)|))
      ensures status == Ok || !o.useHse ==> pastHse
      ensures status == Ok ==> Achieved(old(r), r, o) && Done(trace, |old(trace)|, old(r), o)
      ensures status == Error ==> Refused(r, o)
      ensures status == Timeout ==> TimedOut(r, o, tick - old(tick))
      ensures old(r).sws == Pll && o.pllState != PllNone ==> status != Ok
      ensures Within(old(tick), Patience(o), 26)
    {
      hide SameChain, Config, Put, HwMoves, HighApplied, RestApplied, StopsHsiUnderPll, RealFrequency, FeedsHsi, PllFromApi,
        OffersDriverInput, HighDone, RestDone, Achieved, Refused, FeedsHse, FeedsHsi48, HsiProtected, TimedOut;
      ApiInputsAreChecked(r, o);
      ghost var api := OffersDriverInput(o);
      ghost var a, n;
      status, pastHse, a, n := ConfigureHigh(api, o);
      if status == Ok {
        ghost var seen, mid := trace, r;
        assert FeedsHsi48(mid) == FeedsHsi48(old(r)) by { SameFeed48(api, old(r), a, mid, o, pastHse); }
        ghost var since := tick;
        status := ConfigureRest(api, a, n, o, HighApplied(old(r), o));
        if status == Timeout {
          WaitedLonger(r, o, tick - since, tick - old(tick));
        }
        if status == Ok {
          AppliedFields(old(r), r, o);
          HighDoneMore(seen, |old(trace)|, trace, old(r), o);
          RestDoneFrom(trace, |seen|, |old(trace)|, mid, old(r), o);
        }
      }
      Feeding(api, a, r);
      SameChainFrequency(a, r);
    }

    // ---------- HAL_RCC_ClockConfig ----------

    /** All states so far are safe for the flash if the call is, and the PLL keeps an input of the driver's. */
    ghost predicate Guarded(safe: bool, api: bool, n: nat)
      reads this
    {
      (safe ==> FlashSafeSince(n)) && (api ==> PllFromApiSince(n)) && n <= |trace|
    }

    /** A divider or source write between hardware moves. */
    method DoGuarded(ghost safe: bool, ghost api: bool, ghost n: nat, w: Write)
      requires Guarded(safe, api, n)
      requires w.SetAhbDivider? || w.SetApb1Divider? || w.SelectSource?
      requires w.SelectSource? ==> (safe ==> Suffices(r.latency, RealFrequency(r, w.sw)))
      requires w.SelectSource? && w.sw == Pll && api ==> r.pllSource != HsiHalf
      modifies this
      ensures Guarded(safe, api, n) && old(trace) < trace && trace[|trace| - 1] == r && Within(old(tick), 0, 1)
      ensures Settings(r) == Settings(Put(old(r), w)) && (r.sws == old(r).sws || r.sws == old(r).sw)
    {
      hide Frequency, RealFrequency, Suffices, HwMoves, Settings, FlashSafe, PllFromApi, Put;
      ghost var mid := Do(w);
      SettingsOfMove(old(r), mid);
      SettingsOfPut(old(r), mid, w);
      if safe {
        HwMovesFlashSafe(old(r), mid);
        PutFlashSafe(old(r), mid, w);
      }
      PutKeepsSwitch(mid, w);
      if api {
        HwMovesPllFromApi(old(r), mid);
        PutPllFromApi(old(r), mid, w);
      }
    }

    /** The latency bits; the flash may refuse them. */
    method WriteLatency(ghost safe: bool, ghost api: bool, ghost n: nat, l: nat)
      requires Guarded(safe, api, n)
      requires safe ==> Suffices(l, RealFrequency(r, r.sws)) && Suffices(l, RealFrequency(r, r.sw))
      modifies this
      ensures Guarded(safe, api, n) && old(trace) < trace && trace[|trace| - 1] == r && Within(old(tick), 0, 1)
      ensures Settings(r) == Settings(old(r)) || Settings(r) == Settings(Put(old(r), SetLatency(l)))
      ensures r.sws == old(r).sws || r.sws == old(r).sw
    {
      hide Frequency, RealFrequency, Suffices, HwMoves, Settings, FlashSafe, PllFromApi, Put;
      Hw();
      ghost var mid := r;
      SettingsOfMove(old(r), mid);
      SettingsOfPut(old(r), mid, SetLatency(l));
      var taken: bool := *;
      if taken {
        r := Put(r, SetLatency(l));
      }
      trace := trace + [r];
      if safe {
        HwMovesFlashSafe(old(r), mid);
        LatencyFlashSafe(old(r), mid, l);
      }
      if api {
        HwMovesPllFromApi(old(r), mid);
        PutPllFromApi(old(r), mid, SetLatency(l));
      }
      PutFacts(mid, l);
    }

    method WaitGuarded(ghost safe: bool, ghost api: bool, ghost n: nat, f: Flag, v: bool, timeout: nat) returns (ok: bool)
      requires Guarded(safe, api, n) && timeout < MAX_POLL_GAP
      modifies this
      ensures Guarded(safe, api, n) && old(trace) <= trace && Within(old(tick), timeout, 1)
      ensures Settings(r) == Settings(old(r)) && (r.sws == old(r).sws || r.sws == old(r).sw)
      ensures if ok then ReadFlag(r, f) == v else tick > old(tick) + timeout && ReadFlag(r, f) != v
    {
      hide Settings, FlashSafe, PllFromApi, HwMoves;
      ok := WaitFor(f, v, timeout);
      SettingsOfMove(old(r), r);
      forall i | n <= i < |trace|
        ensures safe ==> FlashSafe(trace[i])
        ensures api ==> PllFromApi(trace[i])
      {
        if i < |old(trace)| {
          assert trace[i] == old(trace)[i];
        } else {
          if safe { HwMovesFlashSafe(old(r), trace[i]); }
          if api { HwMovesPllFromApi(old(r), trace[i]); }
        }
      }
      if safe { HwMovesFlashSafe(old(r), r); }
      if api { HwMovesPllFromApi(old(r), r); }
    }

    /** Selects a source whose ready flag is set and waits until hardware has switched. */
    method SwitchTo(ghost safe: bool, ghost api: bool, ghost n: nat, s: Source) returns (status: Status)
      requires Guarded(safe, api, n)
      requires safe ==> Suffices(r.latency, RealFrequency(r, s))
      modifies this
      ensures Guarded(safe, api, n) && old(trace) <= trace && Within(old(tick), CLOCKSWITCH_TIMEOUT, 2)
      ensures status == Error <==> !Ready(old(r), s)
      ensures status == Error ==> r == old(r) && trace == old(trace)
      ensures status == Ok ==> Settings(r) == Settings(Put(old(r), SelectSource(s))) && r.sws == s
      ensures status == Timeout ==> tick > old(tick) + CLOCKSWITCH_TIMEOUT && r.sws != s
    {
      hide Frequency, RealFrequency, Suffices, FlashSafe, Put, Settings;
      if !ReadFlag(r, ReadyFlag(s)) {
        return Error;
      }
      DoGuarded(safe, api, n, SelectSource(s));
      var ok := WaitGuarded(safe, api, n, SwitchedTo(s), true, CLOCKSWITCH_TIMEOUT);
      return if ok then Ok else Timeout;
    }

    /** Bus divider and source, in the order the driver writes them. */
    method SetAhbAndSource(ghost safe: bool, ghost api: bool, ghost n: nat, c: ClkInit) returns (status: Status)
      requires Guarded(safe, api, n)
      requires safe && c.useSysclk ==> Suffices(r.latency, RealFrequency(r, c.source))
      modifies this
      ensures Guarded(safe, api, n) && old(trace) <= trace && Within(old(tick), CLOCKSWITCH_TIMEOUT, 3)
      ensures status == Ok ==> Settings(r) == Settings(SourceSet(old(r), c))
      ensures status == Ok ==> if c.useSysclk then r.sws == c.source else r.sws == old(r).sws || r.sws == old(r).sw
      ensures c.useSysclk && status != Error ==> SawReady(old(r), trace, |old(trace)|, c.source)
      ensures status == Error ==> c.useSysclk && !Ready(r, c.source) && r.sw == old(r).sw
      ensures status == Timeout ==> tick > old(tick) + CLOCKSWITCH_TIMEOUT && c.useSysclk && r.sws != c.source
    {
      hide Frequency, RealFrequency, Suffices, Guarded, Put, Settings, Ready;
      status := Ok;
      ghost var x := if c.useHclk then Put(old(r), SetAhbDivider(c.ahbDivider)) else old(r);
      AhbFacts(old(r), c.ahbDivider);
      if c.useHclk {
        DoGuarded(safe, api, n, SetAhbDivider(c.ahbDivider));
      }
      SettingsTell(r, x);
      if c.useSysclk {
        SettingsOfPut(x, r, SelectSource(c.source));
        status := SwitchTo(safe, api, n, c.source);
      }
    }

    /** More wait states first, then the rest. */
    method RaiseThenSet(ghost safe: bool, ghost api: bool, ghost n: nat, c: ClkInit, l: nat) returns (status: Status)
      requires Guarded(safe, api, n) && l > r.latency && (safe ==> FlashSafe(r) && LatencySuffices(r, c, l))
      modifies this
      ensures Guarded(safe, api, n) && old(trace) <= trace && Within(old(tick), CLOCKSWITCH_TIMEOUT, 4)
      ensures status == Ok ==> Settings(r) == Settings(Put(SourceSet(old(r), c), SetLatency(l)))
      ensures status == Ok ==> if c.useSysclk then r.sws == c.source else r.sws == old(r).sws || r.sws == old(r).sw
      ensures c.useSysclk && status != Error ==> SawReady(old(r), trace, |old(trace)|, c.source)
      ensures status == Error ==> Unswitched(old(r), r, c, l)
      ensures status == Timeout ==> tick > old(tick) + CLOCKSWITCH_TIMEOUT && c.useSysclk && r.sws != c.source
    {
      hide Frequency, RealFrequency, Suffices, Guarded, Put, Settings, SourceSet, Ready;
      if safe { MoreIsEnough(r, l); }
      PutFacts(r, l);
      WriteLatency(safe, api, n, l);
      if r.latency != l {
        return Error;
      }
      if Settings(r) == Settings(old(r)) {
        SettingsTell(r, old(r));
      }
      SettingsTell(r, Put(old(r), SetLatency(l)));
      SourceCommutes(r, old(r), c, l);
      status := SetAhbAndSource(safe, api, n, c);
    }

    /** Fewer wait states last. */
    method SetThenLower(ghost safe: bool, ghost api: bool, ghost n: nat, c: ClkInit, l: nat) returns (status: Status)
      requires Guarded(safe, api, n) && l <= r.latency && (safe ==> FlashSafe(r) && LatencySuffices(r, c, l))
      modifies this
      ensures Guarded(safe, api, n) && old(trace) <= trace && Within(old(tick), CLOCKSWITCH_TIMEOUT, 4)
      ensures status == Ok ==> Settings(r) == Settings(Put(SourceSet(old(r), c), SetLatency(l)))
      ensures status == Ok ==> if c.useSysclk then r.sws == c.source else r.sws == old(r).sws || r.sws == old(r).sw
      ensures c.useSysclk && status != Error ==> SawReady(old(r), trace, |old(trace)|, c.source)
      ensures status == Error ==> Unswitched(old(r), r, c, l)
      ensures status == Timeout ==> tick > old(tick) + CLOCKSWITCH_TIMEOUT && c.useSysclk && r.sws != c.source
    {
      hide Frequency, RealFrequency, Guarded, Put, Settings, SourceSet, Ready;
      status := SetAhbAndSource(safe, api, n, c);
      if status != Ok {
        return;
      }
      ghost var x := SourceSet(old(r), c);
      SettingsTell(r, x);
      SourceFacts(old(r), c);
      ghost var mid := r;
      SettingsOfPut(mid, x, SetLatency(l));
      PutFacts(mid, l);
      PutFacts(x, l);
      WriteLatency(safe, api, n, l);
      if r.latency != l {
        return Error;
      }
      if Settings(r) == Settings(mid) {
        SettingsTell(r, mid);
        SameLatency(mid, l);
      }
    }

    /** HAL_RCC_ClockConfig: raising the latency comes before, lowering it after the other writes.  If the
        wait states suffice on entry and the requested ones suffice for the resulting clock, they suffice
        in every intermediate state and however the call ends, even if a switch that timed out takes place
        later; and if the requested ones do not suffice, a successful call ends without enough.  A
        successful call leaves exactly the requested settings. */
    method ClockConfig(c: ClkInit, fLatency: nat) returns (status: Status)
      requires FlashSafe(r)
      modifies this
      ensures old(trace) <= trace
      ensures LatencySuffices(old(r), c, fLatency) ==> FlashSafeSince(|old(trace)|)
      ensures status == Ok && old(r).sw == old(r).sws ==> (FlashSafe(r) <==> LatencySuffices(old(r), c, fLatency))
      ensures status == Ok ==> Settings(r) == Settings(old(r).(
        hpre := if c.useHclk then c.ahbDivider else old(r).hpre, ppre := if c.usePclk1 then c.apb1Divider else old(r).ppre,
        sw := if c.useSysclk then c.source else old(r).sw, latency := fLatency))
      ensures status == Ok && c.useSysclk ==> r.sws == c.source
      ensures c.useSysclk && status != Error ==> SawReady(old(r), trace, |old(trace)|, c.source)
      ensures status == Error ==> Unswitched(old(r), r, c, fLatency)
      ensures status == Timeout ==> tick > old(tick) + CLOCKSWITCH_TIMEOUT && c.useSysclk && r.sws != c.source
      ensures PllFromApi(old(r)) ==> PllFromApiSince(|old(trace)|)
      ensures Within(old(tick), CLOCKSWITCH_TIMEOUT, 5)
    {
      hide Frequency, RealFrequency, Suffices, Settings, Put, SourceSet, FlashSafe, LatencySuffices, PllFromApi, SawReady,
        Unswitched, Requested;
      ghost var n := |trace|;
      RequestedIs(r, c, fLatency);
      ghost var safe, api := LatencySuffices(r, c, fLatency), PllFromApi(r);
      if fLatency > r.latency {
        status := RaiseThenSet(safe, api, n, c, fLatency);
      } else {
        status := SetThenLower(safe, api, n, c, fLatency);
      }
      if status != Ok {
        return;
      }
      ghost var x := Put(SourceSet(old(r), c), SetLatency(fLatency));
      FinalClock(old(r), r, c, fLatency);
      RequestedUnfolds(old(r), c, fLatency);
      ghost var seen := trace;
      if c.usePclk1 {
        SettingsOfPut(r, x, SetApb1Divider(c.apb1Divider));
        DoGuarded(safe, api, n, SetApb1Divider(c.apb1Divider));
        FinalDivided(old(r), r, c, fLatency);
        if c.useSysclk { SawReadyMore(old(r), seen, trace, n, c.source); }
      }
    }

    // ---------- the shipped start-up code ----------

    /** Start-up fills in only which oscillator it means; the rest of the request is what the stack held.
        A successful switch runs at 48 MHz with one wait state.  But when both calls succeed, the
        oscillator switched to is enabled exactly when the field nobody filled in happens not to say OFF. */
    method SystemClockConfig(stack: OscInit) returns (osc: Status, clk: Status)
      requires r.sw == r.sws && (FeedsHsi(r) ==> r.hsi.on) && FlashSafe(r) && !FeedsHsi48(r)
      modifies this
      ensures osc == Ok && clk == Ok ==> (r.hsi48.on <==> stack.hsi48State != Off)
      ensures clk == Ok ==> r.sws == Hsi48 && RealFrequency(r, r.sws) == HSI48_VALUE && r.latency == 1 && FlashSafe(r)
      ensures clk == Ok ==> r.hpre == r.ppre == 0
    {
      hide Put, Config, Settings, Applied, SameChain, PllFromApi, Requested, FlashSafe;
      var o := stack.(useHse := false, useHsi := false, useLsi := false, useLse := false, useHsi14 := false, useHsi48 := true);
      ghost var past;
      osc, past := OscConfig(o);
      ChainFlashSafe(old(r), r);
      ghost var mid := r;
      var c := ClkInit(true, true, true, Hsi48, 0, 0);
      OneWaitStateAt48(mid, c);
      clk := ClockConfig(c, 1);
      if clk == Ok {
        SettingsFields(r, mid.(hpre := 0, ppre := 0, sw := Hsi48, latency := 1));
      }
    }

    // ---------- HAL_RCC_GetSysClockFreq ----------

    method GetSysClockFreq() returns (sysclockfreq: nat)
      ensures sysclockfreq == Frequency(r, r.sws)
    {
      match r.sws
      case Hse => sysclockfreq := HSE_VALUE;
      case Pll =>
        var pllmul := PLL_MUL_FACTORS[r.pllMul];
        var prediv := PREDIV_FACTORS[r.prediv];
        if r.pllSource == HsePrediv {
          sysclockfreq := HSE_VALUE / prediv * pllmul;
        } else if r.pllSource == Hsi48Prediv {
          sysclockfreq := HSI48_VALUE / prediv * pllmul;
        } else {
          sysclockfreq := HSI_VALUE / prediv * pllmul;
        }
      case Hsi48 => sysclockfreq := HSI48_VALUE;
      case Hsi => sysclockfreq := HSI_VALUE;
    }
  }

  function ReadyFlag(s: Source): Flag {
    match s case Hse => HseRdy case Pll => PllRdy case Hsi48 => Hsi48Rdy case Hsi => HsiRdy
  }

  /** The ready flag of a clock source. */
  predicate Ready(r: Registers, s: Source) {
    match s
    case Hse => r.hse.ready
    case Pll => r.pll.ready
    case Hsi48 => r.hsi48.ready
    case Hsi => r.hsi.ready
  }

  /** The source was ready at the start or in a state since. */
  ghost predicate SawReady(a: Registers, tr: seq<Registers>, lo: int, s: Source) {
    Ready(a, s) || exists j :: 0 <= lo <= j < |tr| && Ready(tr[j], s)
  }

  lemma SawReadyMore(a: Registers, tr: seq<Registers>, more: seq<Registers>, lo: int, s: Source)
    requires SawReady(a, tr, lo, s) && tr <= more
    ensures SawReady(a, more, lo, s)
  {
    hide Ready;
    if !Ready(a, s) {
      var j :| lo <= j < |tr| && Ready(tr[j], s);
      assert Ready(more[j], s);
    }
  }

  /** The flash refused the latency, or the source is not ready and was not selected. */
  predicate Unswitched(a: Registers, r: Registers, c: ClkInit, fLatency: nat) {
    r.latency != fLatency || (c.useSysclk && !Ready(r, c.source) && r.sw == a.sw)
  }

  /** The settings, without flags and without the source hardware has switched to. */
  function Settings(r: Registers): Registers {
    Config(r).(sws := Hsi)
  }

  function SourceSet(r: Registers, c: ClkInit): Registers {
    var x := if c.useHclk then Put(r, SetAhbDivider(c.ahbDivider)) else r;
    if c.useSysclk then Put(x, SelectSource(c.source)) else x
  }

  function Requested(r: Registers, c: ClkInit, fLatency: nat): Registers {
    var x := Put(SourceSet(r, c), SetLatency(fLatency));
    if c.usePclk1 then Put(x, SetApb1Divider(c.apb1Divider)) else x
  }

  lemma RequestedIs(r: Registers, c: ClkInit, fLatency: nat)
    ensures Requested(r, c, fLatency) == r.(
      hpre := if c.useHclk then c.ahbDivider else r.hpre, ppre := if c.usePclk1 then c.apb1Divider else r.ppre,
      sw := if c.useSysclk then c.source else r.sw, latency := fLatency)
  {}

  lemma RequestedUnfolds(r: Registers, c: ClkInit, fLatency: nat)
    ensures var x := Put(SourceSet(r, c), SetLatency(fLatency));
      Requested(r, c, fLatency) == if c.usePclk1 then Put(x, SetApb1Divider(c.apb1Divider)) else x
  {}

  /** The requested latency is enough for the clock that will run. */
  predicate LatencySuffices(r: Registers, c: ClkInit, fLatency: nat) {
    if c.useSysclk then Suffices(fLatency, RealFrequency(r, c.source))
    else Suffices(fLatency, RealFrequency(r, r.sws)) && Suffices(fLatency, RealFrequency(r, r.sw))
  }

  lemma OneWaitStateAt48(a: Registers, c: ClkInit)
    requires c.useSysclk && c.source == Hsi48
    ensures LatencySuffices(a, c, 1)
  {}

  lemma ChainFlashSafe(a: Registers, b: Registers)
    requires SameChain(a, b) && a.sw == a.sws && FlashSafe(a)
    ensures FlashSafe(b)
  {}

  lemma SettingsFields(a: Registers, b: Registers)
    requires Settings(a) == Settings(b)
    ensures a.latency == b.latency && a.hpre == b.hpre && a.ppre == b.ppre && a.hsi48.on == b.hsi48.on
  {}

  lemma SettingsOfMove(a: Registers, b: Registers)
    requires HwMoves(a, b)
    ensures Settings(b) == Settings(a) && b.latency == a.latency && (b.sws == a.sws || b.sws == a.sw)
    ensures forall s :: RealFrequency(b, s) == RealFrequency(a, s)
  {}

  lemma SettingsOfPut(a: Registers, b: Registers, w: Write)
    requires Settings(a) == Settings(b)
    requires w.SetAhbDivider? || w.SetApb1Divider? || w.SelectSource? || w.SetLatency?
    ensures Settings(Put(a, w)) == Settings(Put(b, w))
  {
    hide Put;
    var c := b.(sws := a.sws);
    SettingsConfig(a, b);
    PutConfig(a, c, w);
    PutIgnoresSwitch(b, a.sws, w);
  }

  lemma SettingsConfig(a: Registers, b: Registers)
    requires Settings(a) == Settings(b)
    ensures Config(a) == Config(b.(sws := a.sws))
  {}

  lemma PutIgnoresSwitch(b: Registers, s: Source, w: Write)
    requires w.SetAhbDivider? || w.SetApb1Divider? || w.SelectSource? || w.SetLatency?
    ensures Put(b.(sws := s), w) == Put(b, w).(sws := s)
  {}

  /** What equal settings have in common. */
  lemma SettingsTell(a: Registers, b: Registers)
    requires Settings(a) == Settings(b)
    ensures a.latency == b.latency && a.sw == b.sw && a.pllSource == b.pllSource && a.pll.on == b.pll.on
    ensures forall s :: RealFrequency(a, s) == RealFrequency(b, s)
  {}

  lemma PutFacts(a: Registers, l: nat)
    ensures var b := Put(a, SetLatency(l));
      b.latency == l && b.sw == a.sw && b.sws == a.sws && forall s :: RealFrequency(b, s) == RealFrequency(a, s)
  {}

  lemma SameLatency(a: Registers, l: nat)
    ensures a.latency == l ==> Put(a, SetLatency(l)) == a
  {}

  lemma AhbFacts(a: Registers, d: nat)
    ensures var b := Put(a, SetAhbDivider(d));
      b.latency == a.latency && b.sw == a.sw && forall s :: RealFrequency(b, s) == RealFrequency(a, s)
  {}

  lemma SourceFacts(a: Registers, c: ClkInit)
    ensures var b := SourceSet(a, c);
      && b.latency == a.latency && b.sw == (if c.useSysclk then c.source else a.sw)
      && forall s :: RealFrequency(b, s) == RealFrequency(a, s)
  {}

  lemma SourceCommutes(a: Registers, b: Registers, c: ClkInit, l: nat)
    requires Settings(a) == Settings(Put(b, SetLatency(l)))
    ensures Settings(SourceSet(a, c)) == Settings(Put(SourceSet(b, c), SetLatency(l)))
  {
    hide Put, Settings;
    var x, y, d := a, Put(b, SetLatency(l)), SetAhbDivider(c.ahbDivider);
    SettingsOfPut(x, y, d);
    SettingsOfPut(x, y, SelectSource(c.source));
    SettingsOfPut(Put(x, d), Put(y, d), SelectSource(c.source));
    LatencyCommutes(b, c, l);
  }

  lemma LatencyCommutes(b: Registers, c: ClkInit, l: nat)
    ensures SourceSet(Put(b, SetLatency(l)), c) == Put(SourceSet(b, c), SetLatency(l))
  {}

  lemma MoreIsEnough(a: Registers, l: nat)
    requires FlashSafe(a) && l >= a.latency
    ensures Suffices(l, RealFrequency(a, a.sws)) && Suffices(l, RealFrequency(a, a.sw))
  {
    hide Frequency, RealFrequency;
  }

  /** With the requested settings in place, the flash is safe exactly if the requested latency suffices. */
  lemma FinalClock(a: Registers, b: Registers, c: ClkInit, l: nat)
    requires Settings(b) == Settings(Put(SourceSet(a, c), SetLatency(l)))
    requires if c.useSysclk then b.sws == c.source else b.sws == a.sws || b.sws == a.sw
    ensures a.sw == a.sws ==> (FlashSafe(b) <==> LatencySuffices(a, c, l))
    ensures b.sw == if c.useSysclk then c.source else a.sw
  {
    hide Frequency, RealFrequency, Suffices, Put, Settings, SourceSet;
    SettingsTell(b, Put(SourceSet(a, c), SetLatency(l)));
    PutFacts(SourceSet(a, c), l);
    SourceFacts(a, c);
  }

  lemma FinalDivided(a: Registers, b: Registers, c: ClkInit, l: nat)
    requires c.usePclk1 && Settings(b) == Settings(Requested(a, c, l))
    requires if c.useSysclk then b.sws == c.source else b.sws == a.sws || b.sws == a.sw
    ensures a.sw == a.sws ==> (FlashSafe(b) <==> LatencySuffices(a, c, l))
  {
    hide Frequency, RealFrequency, Suffices, Settings, SourceSet, Put;
    var x := Put(SourceSet(a, c), SetLatency(l));
    SettingsTell(b, Requested(a, c, l));
    Apb1Facts(x, c.apb1Divider);
    PutFacts(SourceSet(a, c), l);
    SourceFacts(a, c);
  }

  lemma Apb1Facts(a: Registers, d: nat)
    ensures var b := Put(a, SetApb1Divider(d));
      b.latency == a.latency && b.sw == a.sw && forall s :: RealFrequency(b, s) == RealFrequency(a, s)
  {}

  lemma PutKeepsSwitch(a: Registers, w: Write)
    ensures Put(a, w).sws == a.sws
  {}

  lemma PutFlashSafe(a: Registers, b: Registers, w: Write)
    requires HwMoves(a, b) && FlashSafe(b)
    requires w.SetAhbDivider? || w.SetApb1Divider? || w.SelectSource?
    requires w.SelectSource? ==> Suffices(a.latency, RealFrequency(a, w.sw))
    ensures FlashSafe(Put(b, w))
  {}

  lemma PutPllFromApi(a: Registers, b: Registers, w: Write)
    requires HwMoves(a, b) && PllFromApi(b)
    requires w.SetAhbDivider? || w.SetApb1Divider? || w.SelectSource? || w.SetLatency?
    requires w.SelectSource? && w.sw == Pll ==> a.pllSource != HsiHalf
    ensures PllFromApi(Put(b, w))
  {}

  lemma LatencyFlashSafe(a: Registers, b: Registers, l: nat)
    requires HwMoves(a, b) && Suffices(l, RealFrequency(a, a.sws)) && Suffices(l, RealFrequency(a, a.sw))
    ensures FlashSafe(Put(b, SetLatency(l)))
  {}

  /** A stage's result depends on the settings alone. */
  lemma StageConfig(a: Registers, b: Registers, o: OscInit)
    requires Config(a) == Config(b)
    ensures Config(HsiApplied(a, o.hsiState, o.hsiTrim)) == Config(HsiApplied(b, o.hsiState, o.hsiTrim))
    ensures Config(LsiApplied(a, o.lsiState)) == Config(LsiApplied(b, o.lsiState))
    ensures Config(LseApplied(a, o.lseState)) == Config(LseApplied(b, o.lseState))
    ensures Config(Hsi14Applied(a, o.hsi14State, o.hsi14Trim)) == Config(Hsi14Applied(b, o.hsi14State, o.hsi14Trim))
    ensures Config(Hsi48Applied(a, o.hsi48State)) == Config(Hsi48Applied(b, o.hsi48State))
    ensures Config(PllApplied(a, o)) == Config(PllApplied(b, o))
  {
    hide Config, Put;
    SameFeeds(a, b);
    PutConfig(a, b, HsiTrim(o.hsiTrim));
    PutConfig(a, b, HsiEnable(true));
    PutConfig(a, b, HsiEnable(false));
    PutConfig(Put(a, HsiEnable(true)), Put(b, HsiEnable(true)), HsiTrim(o.hsiTrim));
    PutConfig(a, b, LsiEnable(o.lsiState != Off));
    PutConfig(a, b, BackupEnable);
    PutConfig(Put(a, BackupEnable), Put(b, BackupEnable), LseConfig(o.lseState));
    Hsi14Config(a, b, o);
    PutConfig(a, b, Hsi48Enable(o.hsi48State != Off));
    var w := PllConfig(o.pllSource, o.prediv, o.pllMul);
    PutConfig(a, b, w);
    PutConfig(Put(a, w), Put(b, w), PllEnable(true));
    PutConfig(a, b, PllEnable(false));
  }

  lemma Hsi14Config(a: Registers, b: Registers, o: OscInit)
    requires Config(a) == Config(b)
    ensures Config(Hsi14Applied(a, o.hsi14State, o.hsi14Trim)) == Config(Hsi14Applied(b, o.hsi14State, o.hsi14Trim))
  {
    hide Config, Put;
    var w1, w2 := Hsi14Adc(o.hsi14State == Hsi14AdcControl), Hsi14Enable(o.hsi14State == Hsi14On);
    PutConfig(a, b, w1);
    PutConfig(Put(a, w1), Put(b, w1), w2);
    PutConfig(Put(a, w1), Put(b, w1), Hsi14Trim(o.hsi14Trim));
    PutConfig(Put(Put(a, w1), w2), Put(Put(b, w1), w2), Hsi14Trim(o.hsi14Trim));
  }

  lemma SameFeeds(a: Registers, b: Registers)
    requires Config(a) == Config(b)
    ensures FeedsHse(a) == FeedsHse(b) && HsiProtected(a) == HsiProtected(b) && FeedsHsi48(a) == FeedsHsi48(b)
  {}

  lemma KeptRefl(api: bool, a: Registers)
    ensures Kept(api, a, a)
  {}

  lemma HwMovesRefl(a: Registers)
    ensures HwMoves(a, a)
  {}

  lemma MoveKeeps(api: bool, a: Registers, b: Registers, c: Registers)
    requires a.sw == a.sws && Kept(api, a, b) && HwMoves(b, c)
    ensures Kept(api, a, c) && Config(c) == Config(b) && c.pllSource == b.pllSource
  {}

  /** Also where the internal oscillator was switched off under the PLL. */
  lemma SameFeed48(api: bool, a: Registers, b: Registers, c: Registers, o: OscInit, past: bool)
    requires Kept(api, b, c) && b.sws == a.sws
    requires StopsHsiUnderPll(a, o) && past ==> FeedsHsi(b)
    requires !StopsHsiUnderPll(a, o) || !past ==> b == a
    ensures FeedsHsi48(c) == FeedsHsi48(a)
  {}

  /** What feeds the clock is the same all along. */
  lemma Feeding(api: bool, a: Registers, b: Registers)
    requires Kept(api, a, b)
    ensures FeedsHse(b) == FeedsHse(a) && FeedsHsi(b) == FeedsHsi(a) && FeedsHsi48(b) == FeedsHsi48(a)
    ensures HsiProtected(b) == HsiProtected(a) && b.sws == a.sws && (FeedsHsi(a) ==> b.hsi.on == a.hsi.on)
  {}

  lemma PutOver(a: Registers, s: HseState)
    ensures Put(Put(a, HseConfig(HseOff)), HseConfig(s)) == Put(a, HseConfig(s))
  {}

  lemma PutOverLse(a: Registers, s: LseState)
    ensures Put(Put(a, LseConfig(LseOff)), LseConfig(s)) == Put(a, LseConfig(s))
  {}

  lemma PutSource(a: Registers, w: Write)
    requires w.PllConfig?
    ensures Put(a, w).pllSource == w.source
  {}

  lemma SameSource(a: Registers, b: Registers)
    requires Config(a) == Config(b)
    ensures a.pllSource == b.pllSource
  {}

  lemma PutOverPll(a: Registers, w: Write)
    requires w.PllConfig?
    ensures Put(Put(Put(a, PllEnable(false)), w), PllEnable(true)) == Put(Put(a, w), PllEnable(true))
  {}

  lemma AlwaysQuiet(a: Registers, w: Write)
    requires w.HsiTrim?
    ensures Quiet(a, w)
  {}

  lemma Elapsed(t0: nat, t: nat)
    requires t0 <= t < t0 + TWO32
    ensures (t % TWO32 - t0 % TWO32) % TWO32 == t - t0
  {}
}
