/** The clock registers of the chip, field by field, the frequency they stand for, and what hardware
    may change in them on its own. */
module ClockTree {

  datatype Source = Hsi | Hse | Pll | Hsi48

  /** PLLSRC: the first value is the one after reset; the driver interface offers only the others. */
  datatype PllSource = HsiHalf | HsiPrediv | HsePrediv | Hsi48Prediv

  /** An enable bit and the flag hardware answers with. */
  datatype Osc = Osc(on: bool, ready: bool)

  type nibble = x: int | 0 <= x < 16

  datatype Registers = Registers(
    hse: Osc, hseBypass: bool, css: bool,
    hsi: Osc, hsiTrim: nat,
    lsi: Osc, lse: Osc, lseBypass: bool,
    hsi14: Osc, hsi14Adc: bool, hsi14Trim: nat,
    hsi48: Osc, backup: Osc,
    pll: Osc, pllSource: PllSource, prediv: nibble, pllMul: nibble,
    sw: Source, sws: Source, hpre: nat, ppre: nat, latency: nat)

  const HSI_VALUE := 8_000_000
  const HSE_VALUE := 8_000_000
  const HSI48_VALUE := 48_000_000
  const PLL_MUL_FACTORS: seq<nat> := [2, 3, 4, 5, 6, 7, 8, 9, 10, 11, 12, 13, 14, 15, 16, 16]
  const PREDIV_FACTORS: seq<nat> := [1, 2, 3, 4, 5, 6, 7, 8, 9, 10, 11, 12, 13, 14, 15, 16]

  // ---------- frequency ----------

  /** The oscillator the driver takes the PLL to be fed with.  This part has a predivider for the internal
      oscillator too, and the driver computes with it even when the fixed half is selected. */
  function PllInput(s: PllSource): nat {
    match s
    case HsePrediv => HSE_VALUE
    case Hsi48Prediv => HSI48_VALUE
    case HsiPrediv => HSI_VALUE
    case HsiHalf => HSI_VALUE
  }

  /** The system clock frequency the driver computes if the given source drives it. */
  function Frequency(r: Registers, s: Source): nat {
    match s
    case Hse => HSE_VALUE
    case Hsi => HSI_VALUE
    case Hsi48 => HSI48_VALUE
    case Pll => PllInput(r.pllSource) / PREDIV_FACTORS[r.prediv] * PLL_MUL_FACTORS[r.pllMul]
  }

  /** The frequency the system clock really has: the fixed half of the internal oscillator reaches the PLL
      without the predivider. */
  function RealFrequency(r: Registers, s: Source): nat {
    if s == Pll && r.pllSource == HsiHalf then HSI_VALUE / 2 * PLL_MUL_FACTORS[r.pllMul] else Frequency(r, s)
  }

  /** The driver computes the real frequency unless the PLL runs from the fixed half and the unused
      predivider divides by anything but two. */
  lemma ComputedIsReal(r: Registers, s: Source)
    ensures Frequency(r, s) == RealFrequency(r, s) <==> s != Pll || r.pllSource != HsiHalf || PREDIV_FACTORS[r.prediv] == 2
  {
    var div, mul := PREDIV_FACTORS[r.prediv], PLL_MUL_FACTORS[r.pllMul];
    var q := HSI_VALUE / div;
    assert div == r.prediv + 1;
    assert q == HSI_VALUE / 2 <==> div == 2;
    if q < HSI_VALUE / 2 {
      assert q * mul < HSI_VALUE / 2 * mul;
    } else if q > HSI_VALUE / 2 {
      assert q * mul > HSI_VALUE / 2 * mul;
    }
  }

  /** Within the part's limit: input divided and multiplied, off by less than one multiplier's worth of
      hertz for the truncated division, and always within 32 bits. */
  lemma PllFrequency(r: Registers)
    ensures var div, mul := r.prediv + 1, if r.pllMul < 15 then r.pllMul + 2 else 16;
      var input := if r.pllSource == Hsi48Prediv then 48_000_000 else 8_000_000;
      && Frequency(r, Pll) * div <= input * mul < (Frequency(r, Pll) + mul) * div
      && Frequency(r, Pll) < 0x1_0000_0000
    ensures Frequency(r, Hse) == Frequency(r, Hsi) == 8_000_000 && Frequency(r, Hsi48) == 48_000_000
  {
    Factors(r);
    Product(PllInput(r.pllSource), r.prediv + 1, if r.pllMul < 15 then r.pllMul + 2 else 16);
  }

  lemma Factors(r: Registers)
    ensures PREDIV_FACTORS[r.prediv] == r.prediv + 1
    ensures PLL_MUL_FACTORS[r.pllMul] == if r.pllMul < 15 then r.pllMul + 2 else 16
  {}

  lemma Product(input: nat, div: nat, mul: nat)
    requires input <= HSI48_VALUE && div > 0 && 0 < mul <= 16
    ensures var q := input / div;
      q * mul * div <= input * mul < (q * mul + mul) * div && q * mul < 0x1_0000_0000
  {
    var q := input / div;
    assert q * div <= input < (q + 1) * div;
    Scale(q, div, input, mul);
    assert q <= HSI48_VALUE;
    assert q * mul <= HSI48_VALUE * 16;
  }

  lemma Scale(q: nat, div: nat, input: nat, mul: nat)
    requires q * div <= input < (q + 1) * div && mul > 0
    ensures q * mul * div <= input * mul < (q * mul + mul) * div
  {
    assert q * mul * div == q * div * mul;
    assert (q * mul + mul) * div == (q + 1) * div * mul;
  }

  // ---------- flash wait states ----------

  /** The flash answers in time: no wait state up to 24 MHz, one up to 48 MHz. */
  predicate Suffices(latency: nat, frequency: nat) {
    frequency <= 24_000_000 || (frequency <= 48_000_000 && latency >= 1)
  }

  /** Both for the clock that runs and for the one hardware may switch to at any moment. */
  predicate FlashSafe(r: Registers) {
    Suffices(r.latency, RealFrequency(r, r.sws)) && Suffices(r.latency, RealFrequency(r, r.sw))
  }

  // ---------- hardware ----------

  /** Hardware answers an enable bit; it raises the flag only of an oscillator that is enabled. */
  predicate Settles(a: Osc, b: Osc) {
    b.on == a.on && (b.ready ==> a.ready || a.on)
  }

  /** Everything hardware may do between two accesses of the driver: flags come and go, and a requested
      clock switch takes effect. */
  predicate HwMoves(a: Registers, b: Registers) {
    && b == a.(hse := b.hse, hsi := b.hsi, lsi := b.lsi, lse := b.lse, hsi14 := b.hsi14, hsi48 := b.hsi48,
               backup := b.backup, pll := b.pll, sws := b.sws)
    && Settles(a.hse, b.hse) && Settles(a.hsi, b.hsi) && Settles(a.lsi, b.lsi) && Settles(a.lse, b.lse)
    && Settles(a.hsi14, b.hsi14) && Settles(a.hsi48, b.hsi48) && Settles(a.backup, b.backup) && Settles(a.pll, b.pll)
    && (b.sws == a.sws || b.sws == a.sw)
  }

  lemma HwMovesTrans(a: Registers, b: Registers, c: Registers)
    requires HwMoves(a, b) && HwMoves(b, c)
    ensures HwMoves(a, c)
  {}

  lemma HwMovesFlashSafe(a: Registers, b: Registers)
    requires FlashSafe(a) && HwMoves(a, b)
    ensures FlashSafe(b)
  {}

  // ---------- the chain that drives the system clock ----------

  /** The oscillators the running system clock comes from. */
  predicate FeedsHse(r: Registers) {
    r.sws == Hse || (r.sws == Pll && r.pllSource == HsePrediv)
  }

  predicate FeedsHsi(r: Registers) {
    r.sws == Hsi || (r.sws == Pll && (r.pllSource == HsiPrediv || r.pllSource == HsiHalf))
  }

  predicate FeedsHsi48(r: Registers) {
    r.sws == Hsi48 || (r.sws == Pll && r.pllSource == Hsi48Prediv)
  }

  /** The running clock is undisturbed: same source and dividers, and every enable bit on its chain as it
      was. */
  predicate SameChain(a: Registers, b: Registers) {
    && b.sw == a.sw && b.sws == a.sws && b.latency == a.latency && b.hpre == a.hpre && b.ppre == a.ppre
    && (FeedsHse(a) ==> b.hse.on == a.hse.on && b.hseBypass == a.hseBypass)
    && (FeedsHsi(a) ==> b.hsi.on == a.hsi.on)
    && (FeedsHsi48(a) ==> b.hsi48.on == a.hsi48.on)
    && (a.sws == Pll ==> b.pll.on == a.pll.on && b.pllSource == a.pllSource && b.prediv == a.prediv && b.pllMul == a.pllMul)
  }

  lemma SameChainFrequency(a: Registers, b: Registers)
    requires SameChain(a, b)
    ensures Frequency(b, b.sws) == Frequency(a, a.sws) && RealFrequency(b, b.sws) == RealFrequency(a, a.sws)
  {}

  /** The flags aside, what the registers are set to. */
  function Config(r: Registers): Registers {
    r.(hse := Osc(r.hse.on, false), hsi := Osc(r.hsi.on, false), lsi := Osc(r.lsi.on, false),
       lse := Osc(r.lse.on, false), hsi14 := Osc(r.hsi14.on, false), hsi48 := Osc(r.hsi48.on, false),
       backup := Osc(r.backup.on, false), pll := Osc(r.pll.on, false))
  }

  /** Only the driver ever selects the PLL's input, so once the PLL is in use its input is one the driver
      offers. */
  predicate PllFromApi(r: Registers) {
    r.pll.on || r.pll.ready || r.sw == Pll || r.sws == Pll ==> r.pllSource != HsiHalf
  }

  lemma HwMovesPllFromApi(a: Registers, b: Registers)
    requires HwMoves(a, b) && PllFromApi(a)
    ensures PllFromApi(b)
  {}
}
