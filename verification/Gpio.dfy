/** GPIO configuration: fields of one, two and four bits for each of 16 pins, packed into 32-bit registers,
    against an array of per-pin records. */
module Gpio {

  type Position = p: bv32 | p < 16

  // ---------- packed fields ----------

  /** The half of a register that belongs to no pin. */
  function Upper(r: bv32): bv32 { r & 0xFFFF_0000 }

  function Get1(r: bv32, p: Position): bv32 { (r >> p) & 1 }
  function Set1(r: bv32, p: Position, v: bv32): bv32 { (r & !(1 << p)) | (v << p) }
  function Get2(r: bv32, p: Position): bv32 { (r >> (p * 2)) & 3 }
  function Set2(r: bv32, p: Position, v: bv32): bv32 { (r & !(3 << (p * 2))) | (v << (p * 2)) }
  function Get4(r: bv32, k: bv32): bv32 requires k < 8 { (r >> (k * 4)) & 15 }
  function Set4(r: bv32, k: bv32, v: bv32): bv32 requires k < 8 { (r & !(15 << (k * 4))) | (v << (k * 4)) }

  lemma Field1(r: bv32, p: Position, v: bv32, q: Position)
    requires v <= 1
    ensures Get1(Set1(r, p, v), q) == if p == q then v else Get1(r, q)
  {}

  lemma Rest1(r: bv32, p: Position, v: bv32)
    requires v <= 1
    ensures Upper(Set1(r, p, v)) == Upper(r)
  {}

  lemma Field2(r: bv32, p: Position, v: bv32, q: Position)
    requires v <= 3
    ensures Get2(Set2(r, p, v), q) == if p == q then v else Get2(r, q)
  {}

  lemma Field4(r: bv32, p: bv32, v: bv32, q: bv32)
    requires v <= 15 && p < 8 && q < 8
    ensures Get4(Set4(r, p, v), q) == if p == q then v else Get4(r, q)
  {}

  lemma Rest4(r: bv32, p: bv32, v: bv32)
    requires v <= 15 && p < 4
    ensures Upper(Set4(r, p, v)) == Upper(r)
  {}

  lemma SameFields1(r: bv32, t: bv32)
    requires Get1(r, 0) == Get1(t, 0) && Get1(r, 1) == Get1(t, 1) && Get1(r, 2) == Get1(t, 2) && Get1(r, 3) == Get1(t, 3)
    requires Get1(r, 4) == Get1(t, 4) && Get1(r, 5) == Get1(t, 5) && Get1(r, 6) == Get1(t, 6) && Get1(r, 7) == Get1(t, 7)
    requires Get1(r, 8) == Get1(t, 8) && Get1(r, 9) == Get1(t, 9) && Get1(r, 10) == Get1(t, 10) && Get1(r, 11) == Get1(t, 11)
    requires Get1(r, 12) == Get1(t, 12) && Get1(r, 13) == Get1(t, 13) && Get1(r, 14) == Get1(t, 14) && Get1(r, 15) == Get1(t, 15)
    requires Upper(r) == Upper(t)
    ensures r == t
  {}

  lemma SameFields2(r: bv32, t: bv32)
    requires Get2(r, 0) == Get2(t, 0) && Get2(r, 1) == Get2(t, 1) && Get2(r, 2) == Get2(t, 2) && Get2(r, 3) == Get2(t, 3)
    requires Get2(r, 4) == Get2(t, 4) && Get2(r, 5) == Get2(t, 5) && Get2(r, 6) == Get2(t, 6) && Get2(r, 7) == Get2(t, 7)
    requires Get2(r, 8) == Get2(t, 8) && Get2(r, 9) == Get2(t, 9) && Get2(r, 10) == Get2(t, 10) && Get2(r, 11) == Get2(t, 11)
    requires Get2(r, 12) == Get2(t, 12) && Get2(r, 13) == Get2(t, 13) && Get2(r, 14) == Get2(t, 14) && Get2(r, 15) == Get2(t, 15)
    ensures r == t
  {}

  lemma SameFields4(r: bv32, t: bv32)
    requires Get4(r, 0) == Get4(t, 0) && Get4(r, 1) == Get4(t, 1) && Get4(r, 2) == Get4(t, 2) && Get4(r, 3) == Get4(t, 3)
    requires Get4(r, 4) == Get4(t, 4) && Get4(r, 5) == Get4(t, 5) && Get4(r, 6) == Get4(t, 6) && Get4(r, 7) == Get4(t, 7)
    ensures r == t
  {}

  lemma SameLower4(r: bv32, t: bv32)
    requires Get4(r, 0) == Get4(t, 0) && Get4(r, 1) == Get4(t, 1) && Get4(r, 2) == Get4(t, 2) && Get4(r, 3) == Get4(t, 3)
    requires Upper(r) == Upper(t)
    ensures r == t
  {}

  // ---------- registers and pins ----------

  /** The registers of one port and the shared ones of interrupt routing and interrupt lines. */
  datatype Registers = Registers(
    moder: bv32, ospeedr: bv32, otyper: bv32, pupdr: bv32, afrl: bv32, afrh: bv32,
    exticr0: bv32, exticr1: bv32, exticr2: bv32, exticr3: bv32,
    imr: bv32, emr: bv32, rtsr: bv32, ftsr: bv32)

  /** The value of a field as a number. */
  function Num(v: bv32): nat {
    if v == 0 then 0 else if v == 1 then 1 else if v == 2 then 2 else if v == 3 then 3
    else if v == 4 then 4 else if v == 5 then 5 else if v == 6 then 6 else if v == 7 then 7
    else if v == 8 then 8 else if v == 9 then 9 else if v == 10 then 10 else if v == 11 then 11
    else if v == 12 then 12 else if v == 13 then 13 else if v == 14 then 14 else 15
  }

  lemma SameNum(v: bv32, w: bv32)
    requires v <= 15 && w <= 15 && Num(v) == Num(w)
    ensures v == w
  {}

  datatype Pin = Pin(mode: nat, speed: nat, otype: nat, pull: nat, af: nat,
                     route: nat, interrupt: nat, event: nat, rising: nat, falling: nat)

  function Afr(s: Registers, p: Position): bv32 {
    if p < 8 then s.afrl else s.afrh
  }

  function SetAfr(s: Registers, p: Position, v: bv32): Registers {
    if p < 8 then s.(afrl := v) else s.(afrh := v)
  }

  function Exticr(s: Registers, p: Position): bv32 {
    if p < 4 then s.exticr0 else if p < 8 then s.exticr1 else if p < 12 then s.exticr2 else s.exticr3
  }

  function SetExticr(s: Registers, p: Position, v: bv32): Registers {
    if p < 4 then s.(exticr0 := v) else if p < 8 then s.(exticr1 := v)
    else if p < 12 then s.(exticr2 := v) else s.(exticr3 := v)
  }

  /** The pin's place in a register that holds eight or four pins. */
  function Slot8(p: Position): (k: bv32)
    ensures k < 8
  {
    p & 7
  }

  function Slot4(p: Position): (k: bv32)
    ensures k < 4
  {
    p & 3
  }

  function PinOf(s: Registers, p: Position): Pin {
    Pin(Num(Get2(s.moder, p)), Num(Get2(s.ospeedr, p)), Num(Get1(s.otyper, p)), Num(Get2(s.pupdr, p)),
        Num(Get4(Afr(s, p), Slot8(p))), Num(Get4(Exticr(s, p), Slot4(p))),
        Num(Get1(s.imr, p)), Num(Get1(s.emr, p)), Num(Get1(s.rtsr, p)), Num(Get1(s.ftsr, p)))
  }

  /** Bits that belong to no pin: interrupt lines 16 and up and reserved halves. */
  predicate SameRest(s: Registers, t: Registers) {
    && Upper(s.otyper) == Upper(t.otyper)
    && Upper(s.exticr0) == Upper(t.exticr0) && Upper(s.exticr1) == Upper(t.exticr1)
    && Upper(s.exticr2) == Upper(t.exticr2) && Upper(s.exticr3) == Upper(t.exticr3)
    && Upper(s.imr) == Upper(t.imr) && Upper(s.emr) == Upper(t.emr)
    && Upper(s.rtsr) == Upper(t.rtsr) && Upper(s.ftsr) == Upper(t.ftsr)
  }

  ghost predicate SamePins(s: Registers, t: Registers) {
    forall p: Position :: PinOf(s, p) == PinOf(t, p)
  }

  lemma SamePin(s: Registers, t: Registers, p: Position)
    requires SamePins(s, t)
    ensures Get2(s.moder, p) == Get2(t.moder, p) && Get2(s.ospeedr, p) == Get2(t.ospeedr, p)
    ensures Get2(s.pupdr, p) == Get2(t.pupdr, p) && Get1(s.otyper, p) == Get1(t.otyper, p)
    ensures Get1(s.imr, p) == Get1(t.imr, p) && Get1(s.emr, p) == Get1(t.emr, p)
    ensures Get1(s.rtsr, p) == Get1(t.rtsr, p) && Get1(s.ftsr, p) == Get1(t.ftsr, p)
    ensures Get4(Afr(s, p), Slot8(p)) == Get4(Afr(t, p), Slot8(p))
    ensures Get4(Exticr(s, p), Slot4(p)) == Get4(Exticr(t, p), Slot4(p))
  {
    hide Get1, Get2, Get4, Afr, Exticr, Num;
    assert PinOf(s, p) == PinOf(t, p);
    Same2(s.moder, t.moder, p);
    Same2(s.ospeedr, t.ospeedr, p);
    Same2(s.pupdr, t.pupdr, p);
    Same1(s.otyper, t.otyper, p);
    Same1(s.imr, t.imr, p);
    Same1(s.emr, t.emr, p);
    Same1(s.rtsr, t.rtsr, p);
    Same1(s.ftsr, t.ftsr, p);
    Same4(Afr(s, p), Afr(t, p), Slot8(p));
    Same4(Exticr(s, p), Exticr(t, p), Slot4(p));
  }

  lemma Same1(r: bv32, t: bv32, p: Position)
    requires Num(Get1(r, p)) == Num(Get1(t, p))
    ensures Get1(r, p) == Get1(t, p)
  {
    SameNum(Get1(r, p), Get1(t, p));
  }

  lemma Same2(r: bv32, t: bv32, p: Position)
    requires Num(Get2(r, p)) == Num(Get2(t, p))
    ensures Get2(r, p) == Get2(t, p)
  {
    SameNum(Get2(r, p), Get2(t, p));
  }

  lemma Same4(r: bv32, t: bv32, k: bv32)
    requires k < 8 && Num(Get4(r, k)) == Num(Get4(t, k))
    ensures Get4(r, k) == Get4(t, k)
  {
    SameNum(Get4(r, k), Get4(t, k));
  }

  lemma SameSimple(s: Registers, t: Registers)
    requires SamePins(s, t) && SameRest(s, t)
    ensures s.moder == t.moder && s.ospeedr == t.ospeedr && s.pupdr == t.pupdr && s.otyper == t.otyper
    ensures s.imr == t.imr && s.emr == t.emr && s.rtsr == t.rtsr && s.ftsr == t.ftsr
  {
    hide Get1, Get2, Get4, Afr, Exticr, SamePins, Upper;
    SamePin(s, t, 0);
    SamePin(s, t, 1);
    SamePin(s, t, 2);
    SamePin(s, t, 3);
    SamePin(s, t, 4);
    SamePin(s, t, 5);
    SamePin(s, t, 6);
    SamePin(s, t, 7);
    SamePin(s, t, 8);
    SamePin(s, t, 9);
    SamePin(s, t, 10);
    SamePin(s, t, 11);
    SamePin(s, t, 12);
    SamePin(s, t, 13);
    SamePin(s, t, 14);
    SamePin(s, t, 15);
    SameFields2(s.moder, t.moder);
    SameFields2(s.ospeedr, t.ospeedr);
    SameFields2(s.pupdr, t.pupdr);
    SameFields1(s.otyper, t.otyper);
    SameFields1(s.imr, t.imr);
    SameFields1(s.emr, t.emr);
    SameFields1(s.rtsr, t.rtsr);
    SameFields1(s.ftsr, t.ftsr);
  }

  lemma SameQuads(s: Registers, t: Registers)
    requires SamePins(s, t) && SameRest(s, t)
    ensures s.afrl == t.afrl && s.afrh == t.afrh
    ensures s.exticr0 == t.exticr0 && s.exticr1 == t.exticr1 && s.exticr2 == t.exticr2 && s.exticr3 == t.exticr3
  {
    hide Get1, Get2, Get4, SamePins, Upper;
    SamePin(s, t, 0);
    SamePin(s, t, 1);
    SamePin(s, t, 2);
    SamePin(s, t, 3);
    SamePin(s, t, 4);
    SamePin(s, t, 5);
    SamePin(s, t, 6);
    SamePin(s, t, 7);
    SamePin(s, t, 8);
    SamePin(s, t, 9);
    SamePin(s, t, 10);
    SamePin(s, t, 11);
    SamePin(s, t, 12);
    SamePin(s, t, 13);
    SamePin(s, t, 14);
    SamePin(s, t, 15);
    SameFields4(s.afrl, t.afrl);
    SameFields4(s.afrh, t.afrh);
    SameLower4(s.exticr0, t.exticr0);
    SameLower4(s.exticr1, t.exticr1);
    SameLower4(s.exticr2, t.exticr2);
    SameLower4(s.exticr3, t.exticr3);
  }

  /** The registers are nothing but the pins and the rest. */
  lemma PinsDetermineRegisters(s: Registers, t: Registers)
    requires SamePins(s, t) && SameRest(s, t)
    ensures s == t
  {
    hide SamePins, SameRest;
    SameSimple(s, t);
    SameQuads(s, t);
  }

  // ---------- settings ----------

  datatype Mode =
    | Input
    | Output(openDrain: bool)
    | Alternate(openDrain: bool)
    | Analog
    | InterruptOn(rising: bool, falling: bool)
    | EventOn(rising: bool, falling: bool)

  datatype Settings = Settings(mode: Mode, pull: bv32, speed: bv32, alternate: bv32)

  predicate Legal(c: Settings) {
    && c.pull <= 2 && c.speed <= 3 && c.alternate <= 15
    && (c.mode.InterruptOn? || c.mode.EventOn? ==> c.mode.rising || c.mode.falling)
  }

  /** The mode constants of the driver. */
  function Code(m: Mode): bv32 {
    match m
    case Input => 0x0000_0000
    case Output(od) => if od then 0x0000_0011 else 0x0000_0001
    case Alternate(od) => if od then 0x0000_0012 else 0x0000_0002
    case Analog => 0x0000_0003
    case InterruptOn(r, f) => 0x1001_0000 | (if r then 0x0010_0000 else 0) | (if f then 0x0020_0000 else 0)
    case EventOn(r, f) => 0x1002_0000 | (if r then 0x0010_0000 else 0) | (if f then 0x0020_0000 else 0)
  }

  function Bit(b: bool): bv32 {
    if b then 1 else 0
  }

  function One(b: bool): nat {
    if b then 1 else 0
  }

  /** What configuring one pin means. */
  function InitPin(x: Pin, c: Settings, port: bv32): Pin {
    match c.mode
    case Input => x.(mode := 0, pull := Num(c.pull))
    case Analog => x.(mode := 3, pull := Num(c.pull))
    case Output(od) => x.(mode := 1, pull := Num(c.pull), speed := Num(c.speed), otype := One(od))
    case Alternate(od) =>
      x.(mode := 2, pull := Num(c.pull), speed := Num(c.speed), otype := One(od), af := Num(c.alternate))
    case InterruptOn(r, f) =>
      x.(mode := 0, pull := Num(c.pull), route := Num(port), interrupt := 1, event := 0, rising := One(r), falling := One(f))
    case EventOn(r, f) =>
      x.(mode := 0, pull := Num(c.pull), route := Num(port), interrupt := 0, event := 1, rising := One(r), falling := One(f))
  }

  /** What releasing one pin means: its interrupt line only if that is routed to this port. */
  function ResetPin(x: Pin, port: bv32): Pin {
    var y := x.(mode := 0, speed := 0, otype := 0, pull := 0, af := 0);
    if x.route == Num(port) then y.(route := 0, interrupt := 0, event := 0, rising := 0, falling := 0) else y
  }

  predicate Masked(mask: bv32, p: Position) {
    (mask >> p) & 1 == 1
  }

  /** Exactly the masked pins were configured. */
  ghost predicate Initialised(s: Registers, t: Registers, mask: bv32, c: Settings, port: bv32) {
    && SameRest(s, t)
    && forall p: Position :: PinOf(t, p) == if Masked(mask, p) then InitPin(PinOf(s, p), c, port) else PinOf(s, p)
  }

  ghost predicate Released(s: Registers, t: Registers, mask: bv32, port: bv32) {
    && SameRest(s, t)
    && forall p: Position :: PinOf(t, p) == if Masked(mask, p) then ResetPin(PinOf(s, p), port) else PinOf(s, p)
  }

  // ---------- one field of one pin ----------

  /** t differs from s at most in pin p, which became x. */
  ghost predicate OnlyPin(s: Registers, t: Registers, p: Position, x: Pin) {
    SameRest(s, t) && forall q: Position :: PinOf(t, q) == if q == p then x else PinOf(s, q)
  }

  lemma OnlyPinTwice(s: Registers, t: Registers, u: Registers, p: Position, x: Pin, y: Pin)
    requires OnlyPin(s, t, p, x) && OnlyPin(t, u, p, y)
    ensures OnlyPin(s, u, p, y)
  {
    hide PinOf, Upper;
    assert forall q: Position :: PinOf(u, q) == if q == p then y else PinOf(t, q);
    forall q: Position ensures PinOf(u, q) == if q == p then y else PinOf(s, q) {
      assert PinOf(t, q) == if q == p then x else PinOf(s, q);
    }
  }

  lemma DirectionSet(s: Registers, p: Position, v: bv32)
    requires v <= 3
    ensures OnlyPin(s, s.(moder := Set2(s.moder, p, v)), p, PinOf(s, p).(mode := Num(v)))
  {
    hide Get1, Get2, Get4, Set1, Set2, Set4, Upper, Num, Slot4, Slot8;
    var t := s.(moder := Set2(s.moder, p, v));
    forall q: Position ensures PinOf(t, q) == if q == p then PinOf(s, p).(mode := Num(v)) else PinOf(s, q) {
      Field2(s.moder, p, v, q);
    }
  }

  lemma SpeedSet(s: Registers, p: Position, v: bv32)
    requires v <= 3
    ensures OnlyPin(s, s.(ospeedr := Set2(s.ospeedr, p, v)), p, PinOf(s, p).(speed := Num(v)))
  {
    hide Get1, Get2, Get4, Set1, Set2, Set4, Upper, Num, Slot4, Slot8;
    var t := s.(ospeedr := Set2(s.ospeedr, p, v));
    forall q: Position ensures PinOf(t, q) == if q == p then PinOf(s, p).(speed := Num(v)) else PinOf(s, q) {
      Field2(s.ospeedr, p, v, q);
    }
  }

  lemma PullSet(s: Registers, p: Position, v: bv32)
    requires v <= 3
    ensures OnlyPin(s, s.(pupdr := Set2(s.pupdr, p, v)), p, PinOf(s, p).(pull := Num(v)))
  {
    hide Get1, Get2, Get4, Set1, Set2, Set4, Upper, Num, Slot4, Slot8;
    var t := s.(pupdr := Set2(s.pupdr, p, v));
    forall q: Position ensures PinOf(t, q) == if q == p then PinOf(s, p).(pull := Num(v)) else PinOf(s, q) {
      Field2(s.pupdr, p, v, q);
    }
  }

  lemma TypeSet(s: Registers, p: Position, v: bv32)
    requires v <= 1
    ensures OnlyPin(s, s.(otyper := Set1(s.otyper, p, v)), p, PinOf(s, p).(otype := Num(v)))
  {
    hide Get1, Get2, Get4, Set1, Set2, Set4, Upper, Num, Slot4, Slot8;
    var t := s.(otyper := Set1(s.otyper, p, v));
    Rest1(s.otyper, p, v);
    forall q: Position ensures PinOf(t, q) == if q == p then PinOf(s, p).(otype := Num(v)) else PinOf(s, q) {
      Field1(s.otyper, p, v, q);
    }
  }

  lemma FunctionSet(s: Registers, p: Position, v: bv32)
    requires v <= 15
    ensures OnlyPin(s, SetAfr(s, p, Set4(Afr(s, p), Slot8(p), v)), p, PinOf(s, p).(af := Num(v)))
  {
    hide Get1, Get2, Get4, Set1, Set2, Set4, Upper, Num, Slot4, Slot8;
    var t := SetAfr(s, p, Set4(Afr(s, p), Slot8(p), v));
    forall q: Position ensures PinOf(t, q) == if q == p then PinOf(s, p).(af := Num(v)) else PinOf(s, q) {
      Field4(Afr(s, p), Slot8(p), v, Slot8(q));
      SameHalf(p, q);
    }
  }

  /** Two pins that share a register have different places in it. */
  lemma SameHalf(p: Position, q: Position)
    ensures Slot8(p) == Slot8(q) && (p < 8 <==> q < 8) ==> p == q
    ensures Slot4(p) == Slot4(q) && (p < 4 <==> q < 4) && (p < 8 <==> q < 8) && (p < 12 <==> q < 12) ==> p == q
  {}

  lemma RouteSet(s: Registers, p: Position, v: bv32)
    requires v <= 15
    ensures OnlyPin(s, SetExticr(s, p, Set4(Exticr(s, p), Slot4(p), v)), p, PinOf(s, p).(route := Num(v)))
  {
    hide Get1, Get2, Get4, Set1, Set2, Set4, Upper, Num, Slot4, Slot8;
    var t := SetExticr(s, p, Set4(Exticr(s, p), Slot4(p), v));
    Rest4(Exticr(s, p), Slot4(p), v);
    forall q: Position ensures PinOf(t, q) == if q == p then PinOf(s, p).(route := Num(v)) else PinOf(s, q) {
      Field4(Exticr(s, p), Slot4(p), v, Slot4(q));
      SameHalf(p, q);
    }
  }

  lemma InterruptSet(s: Registers, p: Position, v: bv32)
    requires v <= 1
    ensures OnlyPin(s, s.(imr := Set1(s.imr, p, v)), p, PinOf(s, p).(interrupt := Num(v)))
  {
    hide Get1, Get2, Get4, Set1, Set2, Set4, Upper, Num, Slot4, Slot8;
    var t := s.(imr := Set1(s.imr, p, v));
    Rest1(s.imr, p, v);
    forall q: Position ensures PinOf(t, q) == if q == p then PinOf(s, p).(interrupt := Num(v)) else PinOf(s, q) {
      Field1(s.imr, p, v, q);
    }
  }

  lemma EventSet(s: Registers, p: Position, v: bv32)
    requires v <= 1
    ensures OnlyPin(s, s.(emr := Set1(s.emr, p, v)), p, PinOf(s, p).(event := Num(v)))
  {
    hide Get1, Get2, Get4, Set1, Set2, Set4, Upper, Num, Slot4, Slot8;
    var t := s.(emr := Set1(s.emr, p, v));
    Rest1(s.emr, p, v);
    forall q: Position ensures PinOf(t, q) == if q == p then PinOf(s, p).(event := Num(v)) else PinOf(s, q) {
      Field1(s.emr, p, v, q);
    }
  }

  lemma RisingSet(s: Registers, p: Position, v: bv32)
    requires v <= 1
    ensures OnlyPin(s, s.(rtsr := Set1(s.rtsr, p, v)), p, PinOf(s, p).(rising := Num(v)))
  {
    hide Get1, Get2, Get4, Set1, Set2, Set4, Upper, Num, Slot4, Slot8;
    var t := s.(rtsr := Set1(s.rtsr, p, v));
    Rest1(s.rtsr, p, v);
    forall q: Position ensures PinOf(t, q) == if q == p then PinOf(s, p).(rising := Num(v)) else PinOf(s, q) {
      Field1(s.rtsr, p, v, q);
    }
  }

  lemma FallingSet(s: Registers, p: Position, v: bv32)
    requires v <= 1
    ensures OnlyPin(s, s.(ftsr := Set1(s.ftsr, p, v)), p, PinOf(s, p).(falling := Num(v)))
  {
    hide Get1, Get2, Get4, Set1, Set2, Set4, Upper, Num, Slot4, Slot8;
    var t := s.(ftsr := Set1(s.ftsr, p, v));
    Rest1(s.ftsr, p, v);
    forall q: Position ensures PinOf(t, q) == if q == p then PinOf(s, p).(falling := Num(v)) else PinOf(s, q) {
      Field1(s.ftsr, p, v, q);
    }
  }

  // ---------- the driver ----------

  class Driver {
    var r: Registers
    const port: bv32

    constructor (index: bv32, initial: Registers)
      requires index <= 5
      ensures port == index && r == initial
    {
      port, r := index, initial;
    }

    // Each of these reads a register, masks the pin's field out, ors the value in and writes it back; s is
    // the state before the pin was touched and x what has become of the pin since.

    method PutFunction(p: Position, v: bv32, ghost s: Registers, ghost x: Pin)
      requires v <= 15 && OnlyPin(s, r, p, x)
      modifies this
      ensures OnlyPin(s, r, p, x.(af := Num(v)))
    {
      hide PinOf, OnlyPin, Set1, Set2, Set4, Afr, SetAfr, Exticr, SetExticr, Num;
      ThePin(s, r, p, x);
      FunctionSet(r, p, v);
      ghost var before := r;
      r := SetAfr(r, p, Set4(Afr(r, p), Slot8(p), v));
      OnlyPinTwice(s, before, r, p, x, x.(af := Num(v)));
    }

    method PutDirection(p: Position, v: bv32, ghost s: Registers, ghost x: Pin)
      requires v <= 3 && OnlyPin(s, r, p, x)
      modifies this
      ensures OnlyPin(s, r, p, x.(mode := Num(v)))
    {
      hide PinOf, OnlyPin, Set1, Set2, Set4, Afr, SetAfr, Exticr, SetExticr, Num;
      ThePin(s, r, p, x);
      DirectionSet(r, p, v);
      ghost var before := r;
      r := r.(moder := Set2(r.moder, p, v));
      OnlyPinTwice(s, before, r, p, x, x.(mode := Num(v)));
    }

    method PutSpeed(p: Position, v: bv32, ghost s: Registers, ghost x: Pin)
      requires v <= 3 && OnlyPin(s, r, p, x)
      modifies this
      ensures OnlyPin(s, r, p, x.(speed := Num(v)))
    {
      hide PinOf, OnlyPin, Set1, Set2, Set4, Afr, SetAfr, Exticr, SetExticr, Num;
      ThePin(s, r, p, x);
      SpeedSet(r, p, v);
      ghost var before := r;
      r := r.(ospeedr := Set2(r.ospeedr, p, v));
      OnlyPinTwice(s, before, r, p, x, x.(speed := Num(v)));
    }

    method PutType(p: Position, v: bv32, ghost s: Registers, ghost x: Pin)
      requires v <= 1 && OnlyPin(s, r, p, x)
      modifies this
      ensures OnlyPin(s, r, p, x.(otype := Num(v)))
    {
      hide PinOf, OnlyPin, Set1, Set2, Set4, Afr, SetAfr, Exticr, SetExticr, Num;
      ThePin(s, r, p, x);
      TypeSet(r, p, v);
      ghost var before := r;
      r := r.(otyper := Set1(r.otyper, p, v));
      OnlyPinTwice(s, before, r, p, x, x.(otype := Num(v)));
    }

    method PutPull(p: Position, v: bv32, ghost s: Registers, ghost x: Pin)
      requires v <= 3 && OnlyPin(s, r, p, x)
      modifies this
      ensures OnlyPin(s, r, p, x.(pull := Num(v)))
    {
      hide PinOf, OnlyPin, Set1, Set2, Set4, Afr, SetAfr, Exticr, SetExticr, Num;
      ThePin(s, r, p, x);
      PullSet(r, p, v);
      ghost var before := r;
      r := r.(pupdr := Set2(r.pupdr, p, v));
      OnlyPinTwice(s, before, r, p, x, x.(pull := Num(v)));
    }

    method PutRoute(p: Position, v: bv32, ghost s: Registers, ghost x: Pin)
      requires v <= 15 && OnlyPin(s, r, p, x)
      modifies this
      ensures OnlyPin(s, r, p, x.(route := Num(v)))
    {
      hide PinOf, OnlyPin, Set1, Set2, Set4, Afr, SetAfr, Exticr, SetExticr, Num;
      ThePin(s, r, p, x);
      RouteSet(r, p, v);
      ghost var before := r;
      r := SetExticr(r, p, Set4(Exticr(r, p), Slot4(p), v));
      OnlyPinTwice(s, before, r, p, x, x.(route := Num(v)));
    }

    method PutInterrupt(p: Position, v: bv32, ghost s: Registers, ghost x: Pin)
      requires v <= 1 && OnlyPin(s, r, p, x)
      modifies this
      ensures OnlyPin(s, r, p, x.(interrupt := Num(v)))
    {
      hide PinOf, OnlyPin, Set1, Set2, Set4, Afr, SetAfr, Exticr, SetExticr, Num;
      ThePin(s, r, p, x);
      InterruptSet(r, p, v);
      ghost var before := r;
      r := r.(imr := Set1(r.imr, p, v));
      OnlyPinTwice(s, before, r, p, x, x.(interrupt := Num(v)));
    }

    method PutEvent(p: Position, v: bv32, ghost s: Registers, ghost x: Pin)
      requires v <= 1 && OnlyPin(s, r, p, x)
      modifies this
      ensures OnlyPin(s, r, p, x.(event := Num(v)))
    {
      hide PinOf, OnlyPin, Set1, Set2, Set4, Afr, SetAfr, Exticr, SetExticr, Num;
      ThePin(s, r, p, x);
      EventSet(r, p, v);
      ghost var before := r;
      r := r.(emr := Set1(r.emr, p, v));
      OnlyPinTwice(s, before, r, p, x, x.(event := Num(v)));
    }

    method PutRising(p: Position, v: bv32, ghost s: Registers, ghost x: Pin)
      requires v <= 1 && OnlyPin(s, r, p, x)
      modifies this
      ensures OnlyPin(s, r, p, x.(rising := Num(v)))
    {
      hide PinOf, OnlyPin, Set1, Set2, Set4, Afr, SetAfr, Exticr, SetExticr, Num;
      ThePin(s, r, p, x);
      RisingSet(r, p, v);
      ghost var before := r;
      r := r.(rtsr := Set1(r.rtsr, p, v));
      OnlyPinTwice(s, before, r, p, x, x.(rising := Num(v)));
    }

    method PutFalling(p: Position, v: bv32, ghost s: Registers, ghost x: Pin)
      requires v <= 1 && OnlyPin(s, r, p, x)
      modifies this
      ensures OnlyPin(s, r, p, x.(falling := Num(v)))
    {
      hide PinOf, OnlyPin, Set1, Set2, Set4, Afr, SetAfr, Exticr, SetExticr, Num;
      ThePin(s, r, p, x);
      FallingSet(r, p, v);
      ghost var before := r;
      r := r.(ftsr := Set1(r.ftsr, p, v));
      OnlyPinTwice(s, before, r, p, x, x.(falling := Num(v)));
    }

    /** The interrupt line of a pin. */
    method ConfigureLine(p: Position, mode: bv32, ghost s: Registers, ghost x: Pin)
      requires port <= 5 && OnlyPin(s, r, p, x)
      modifies this
      ensures OnlyPin(s, r, p, x.(route := Num(port),
        interrupt := One(mode & 0x0001_0000 == 0x0001_0000), event := One(mode & 0x0002_0000 == 0x0002_0000),
        rising := One(mode & 0x0010_0000 == 0x0010_0000), falling := One(mode & 0x0020_0000 == 0x0020_0000)))
    {
      hide OnlyPin, Num;
      ghost var y := x;
      PutRoute(p, port, s, y);
      y := y.(route := Num(port));
      var it, ev := mode & 0x0001_0000 == 0x0001_0000, mode & 0x0002_0000 == 0x0002_0000;
      var rise, fall := mode & 0x0010_0000 == 0x0010_0000, mode & 0x0020_0000 == 0x0020_0000;
      PutLineBits(p, it, ev, rise, fall, s, y);
    }

    method PutLineBits(p: Position, it: bool, ev: bool, rise: bool, fall: bool, ghost s: Registers, ghost x: Pin)
      requires OnlyPin(s, r, p, x)
      modifies this
      ensures OnlyPin(s, r, p, x.(interrupt := One(it), event := One(ev), rising := One(rise), falling := One(fall)))
    {
      hide OnlyPin, Num, Bit;
      ghost var y := x;
      BitNum(it);
      PutInterrupt(p, Bit(it), s, y);
      y := y.(interrupt := One(it));
      BitNum(ev);
      PutEvent(p, Bit(ev), s, y);
      y := y.(event := One(ev));
      BitNum(rise);
      PutRising(p, Bit(rise), s, y);
      y := y.(rising := One(rise));
      BitNum(fall);
      PutFalling(p, Bit(fall), s, y);
    }

    /** The body of the loop of HAL_GPIO_Init. */
    method ConfigureOne(p: Position, c: Settings)
      requires Legal(c) && port <= 5
      modifies this
      ensures OnlyPin(old(r), r, p, InitPin(PinOf(old(r), p), c, port))
    {
      hide PinOf, OnlyPin, Code, Num;
      var mode := Code(c.mode);
      CodeTells(c.mode);
      ghost var s, x := r, PinOf(r, p);
      OnlyPinRefl(s, p);
      if mode == 0x02 || mode == 0x12 {
        PutFunction(p, c.alternate, s, x);
        x := x.(af := Num(c.alternate));
      }
      PutDirection(p, mode & 3, s, x);
      x := x.(mode := Num(mode & 3));
      if mode == 0x01 || mode == 0x02 || mode == 0x11 || mode == 0x12 {
        PutSpeed(p, c.speed, s, x);
        x := x.(speed := Num(c.speed));
        PutType(p, (mode & 0x10) >> 4, s, x);
        x := x.(otype := Num((mode & 0x10) >> 4));
      }
      PutPull(p, c.pull, s, x);
      x := x.(pull := Num(c.pull));
      if mode & 0x1000_0000 == 0x1000_0000 {
        ConfigureLine(p, mode, s, x);
      }
    }

    /** The body of the loop of HAL_GPIO_DeInit. */
    method ReleaseOne(p: Position)
      requires port <= 5
      modifies this
      ensures OnlyPin(old(r), r, p, ResetPin(PinOf(old(r), p), port))
    {
      hide PinOf, OnlyPin, Exticr, Num;
      ghost var s, x := r, PinOf(r, p);
      OnlyPinRefl(s, p);
      BitNum(false);
      PutDirection(p, 0, s, x);
      x := x.(mode := 0);
      PutFunction(p, 0, s, x);
      x := x.(af := 0);
      PutSpeed(p, 0, s, x);
      x := x.(speed := 0);
      PutType(p, 0, s, x);
      x := x.(otype := 0);
      PutPull(p, 0, s, x);
      x := x.(pull := 0);
      ThePin(s, r, p, x);
      RouteTest(r, p, port);
      if Exticr(r, p) & (0x0F << (4 * Slot4(p))) == port << (4 * Slot4(p)) {
        PutRoute(p, 0, s, x);
        x := x.(route := 0);
        PutLineBits(p, false, false, false, false, s, x);
      }
    }

    /** HAL_GPIO_Init. */
    method Init(mask: bv32, c: Settings)
      requires 1 <= mask <= 0xFFFF && Legal(c) && port <= 5
      modifies this
      ensures Initialised(old(r), r, mask, c, port)
    {
      hide PinOf, InitPin, SameRest, Masked;
      var position: bv32 := 0;
      RestRefl(r);
      while mask >> position != 0
        invariant position <= 16 && SameRest(old(r), r)
        invariant forall p: Position ::
          PinOf(r, p) == (if p < position && Masked(mask, p) then InitPin(PinOf(old(r), p), c, port) else PinOf(old(r), p))
        decreases 16 - position
      {
        Within(mask, position);
        var ioCurrent := mask & (1 << position);
        Current(mask, position);
        if ioCurrent != 0 {
          ghost var before := r;
          ConfigureOne(position, c);
          RestTrans(old(r), before, r);
        }
        position := position + 1;
      }
      forall p: Position | p >= position ensures !Masked(mask, p) {
        Beyond(mask, position, p);
      }
    }

    /** HAL_GPIO_DeInit. */
    method DeInit(mask: bv32)
      requires 1 <= mask <= 0xFFFF && port <= 5
      modifies this
      ensures Released(old(r), r, mask, port)
    {
      hide PinOf, ResetPin, SameRest, Masked;
      var position: bv32 := 0;
      RestRefl(r);
      while mask >> position != 0
        invariant position <= 16 && SameRest(old(r), r)
        invariant forall p: Position ::
          PinOf(r, p) == (if p < position && Masked(mask, p) then ResetPin(PinOf(old(r), p), port) else PinOf(old(r), p))
        decreases 16 - position
      {
        Within(mask, position);
        var ioCurrent := mask & (1 << position);
        Current(mask, position);
        if ioCurrent != 0 {
          ghost var before := r;
          ReleaseOne(position);
          RestTrans(old(r), before, r);
        }
        position := position + 1;
      }
      forall p: Position | p >= position ensures !Masked(mask, p) {
        Beyond(mask, position, p);
      }
    }
  }

  lemma ThePin(s: Registers, t: Registers, p: Position, x: Pin)
    requires OnlyPin(s, t, p, x)
    ensures PinOf(t, p) == x
  {
    hide PinOf;
  }

  lemma OnlyPinRefl(s: Registers, p: Position)
    ensures OnlyPin(s, s, p, PinOf(s, p))
  {
    hide PinOf, Upper;
  }

  lemma RestTrans(s: Registers, t: Registers, u: Registers)
    requires SameRest(s, t) && SameRest(t, u)
    ensures SameRest(s, u)
  {
    hide Upper;
  }

  lemma BitNum(b: bool)
    ensures Bit(b) <= 1 && Num(Bit(b)) == One(b) && Num(0) == 0
  {}

  /** The bit tests of the driver on the mode constants. */
  lemma CodeTells(m: Mode)
    ensures var k := Code(m);
      && (k == 0x02 || k == 0x12 <==> m.Alternate?)
      && (k == 0x01 || k == 0x02 || k == 0x11 || k == 0x12 <==> m.Output? || m.Alternate?)
      && k & 3 <= 3 && Num(k & 3) == (if m.Output? then 1 else if m.Alternate? then 2 else if m.Analog? then 3 else 0)
      && (k & 0x10) >> 4 <= 1 && (m.Output? || m.Alternate? ==> Num((k & 0x10) >> 4) == One(m.openDrain))
      && (k & 0x1000_0000 == 0x1000_0000 <==> m.InterruptOn? || m.EventOn?)
      && (k & 0x0001_0000 == 0x0001_0000 <==> m.InterruptOn?) && (k & 0x0002_0000 == 0x0002_0000 <==> m.EventOn?)
      && (m.InterruptOn? || m.EventOn? ==>
            && (k & 0x0010_0000 == 0x0010_0000 <==> m.rising) && (k & 0x0020_0000 == 0x0020_0000 <==> m.falling))
  {}

  lemma RouteTest(s: Registers, p: Position, port: bv32)
    requires port <= 15
    ensures Exticr(s, p) & (0x0F << (4 * Slot4(p))) == port << (4 * Slot4(p)) <==> PinOf(s, p).route == Num(port)
  {
    hide Get1, Get2, Exticr, Afr, Num;
    FieldTest(Exticr(s, p), Slot4(p), port);
    if PinOf(s, p).route == Num(port) {
      SameNum(Get4(Exticr(s, p), Slot4(p)), port);
    }
  }

  lemma FieldTest(r: bv32, k: bv32, v: bv32)
    requires k < 4 && v <= 15
    ensures Get4(r, k) <= 15 && (r & (0x0F << (4 * k)) == v << (4 * k) <==> Get4(r, k) == v)
  {}

  lemma RestRefl(s: Registers)
    ensures SameRest(s, s)
  {}

  lemma Within(mask: bv32, p: bv32)
    requires mask <= 0xFFFF && p <= 16 && mask >> p != 0
    ensures p < 16
  {}

  lemma Current(mask: bv32, p: Position)
    ensures mask & (1 << p) != 0 <==> Masked(mask, p)
  {}

  lemma Beyond(mask: bv32, p: bv32, q: Position)
    requires p <= q && mask >> p == 0
    ensures !Masked(mask, q)
  {}

  // ---------- what follows ----------

  lemma InitTwice(x: Pin, c: Settings, port: bv32)
    ensures InitPin(InitPin(x, c, port), c, port) == InitPin(x, c, port)
  {
    hide Num;
  }

  /** Configuring two sets of pins one after the other, in either order, leaves the same registers as
      configuring their union at once. */
  lemma UnionOfMasks(s: Registers, t: Registers, u: Registers, v: Registers, m1: bv32, m2: bv32, c: Settings, port: bv32)
    requires Initialised(s, t, m1, c, port) && Initialised(t, u, m2, c, port) && Initialised(s, v, m1 | m2, c, port)
    ensures u == v
  {
    hide PinOf, SameRest, Masked, InitPin;
    RestTrans(s, t, u);
    RestSym(s, v);
    RestTrans(v, s, u);
    forall p: Position ensures PinOf(v, p) == PinOf(u, p) {
      assert PinOf(t, p) == if Masked(m1, p) then InitPin(PinOf(s, p), c, port) else PinOf(s, p);
      assert PinOf(u, p) == if Masked(m2, p) then InitPin(PinOf(t, p), c, port) else PinOf(t, p);
      InitTwice(PinOf(s, p), c, port);
      UnionMasked(m1, m2, p);
    }
    PinsDetermineRegisters(v, u);
  }

  lemma RestSym(s: Registers, t: Registers)
    requires SameRest(s, t)
    ensures SameRest(t, s)
  {
    hide Upper;
  }

  lemma UnionMasked(m1: bv32, m2: bv32, p: Position)
    ensures Masked(m1 | m2, p) <==> Masked(m1, p) || Masked(m2, p)
  {}

  // ---------- what the registers hold afterwards ----------

  /** Output speed and type, alternate function, and interrupt line of the pin are as they were. */
  predicate SameDrive(s: Registers, t: Registers, p: Position) {
    Get2(t.ospeedr, p) == Get2(s.ospeedr, p) && Get1(t.otyper, p) == Get1(s.otyper, p)
  }

  predicate SameFunction(s: Registers, t: Registers, p: Position) {
    Get4(Afr(t, p), Slot8(p)) == Get4(Afr(s, p), Slot8(p))
  }

  predicate SameLine(s: Registers, t: Registers, p: Position) {
    && Get4(Exticr(t, p), Slot4(p)) == Get4(Exticr(s, p), Slot4(p))
    && Get1(t.imr, p) == Get1(s.imr, p) && Get1(t.emr, p) == Get1(s.emr, p)
    && Get1(t.rtsr, p) == Get1(s.rtsr, p) && Get1(t.ftsr, p) == Get1(s.ftsr, p)
  }

  predicate Driven(t: Registers, p: Position, c: Settings, openDrain: bool) {
    Get2(t.ospeedr, p) == c.speed && Get1(t.otyper, p) == Bit(openDrain)
  }

  predicate LineSet(t: Registers, p: Position, port: bv32, interrupt: bool, rising: bool, falling: bool) {
    && Get4(Exticr(t, p), Slot4(p)) == port
    && Get1(t.imr, p) == Bit(interrupt) && Get1(t.emr, p) == Bit(!interrupt)
    && Get1(t.rtsr, p) == Bit(rising) && Get1(t.ftsr, p) == Bit(falling)
  }

  /** The registers of a pin whose fields have these values. */
  lemma FieldsTell(t: Registers, p: Position, mode: bv32, speed: bv32, otype: bv32, pull: bv32, af: bv32,
                   route: bv32, interrupt: bv32, event: bv32, rising: bv32, falling: bv32)
    requires mode <= 15 && speed <= 15 && otype <= 15 && pull <= 15 && af <= 15
    requires route <= 15 && interrupt <= 15 && event <= 15 && rising <= 15 && falling <= 15
    requires PinOf(t, p) == Pin(Num(mode), Num(speed), Num(otype), Num(pull), Num(af),
                                Num(route), Num(interrupt), Num(event), Num(rising), Num(falling))
    ensures Get2(t.moder, p) == mode && Get2(t.ospeedr, p) == speed && Get1(t.otyper, p) == otype && Get2(t.pupdr, p) == pull
    ensures Get4(Afr(t, p), Slot8(p)) == af && Get4(Exticr(t, p), Slot4(p)) == route
    ensures Get1(t.imr, p) == interrupt && Get1(t.emr, p) == event && Get1(t.rtsr, p) == rising && Get1(t.ftsr, p) == falling
  {
    hide Num, Get1, Get2, Get4, Afr, Exticr, Slot8, Slot4;
    FieldBounds(t, p);
    SameNum(Get2(t.moder, p), mode);
    SameNum(Get2(t.ospeedr, p), speed);
    SameNum(Get1(t.otyper, p), otype);
    SameNum(Get2(t.pupdr, p), pull);
    SameNum(Get4(Afr(t, p), Slot8(p)), af);
    SameNum(Get4(Exticr(t, p), Slot4(p)), route);
    SameNum(Get1(t.imr, p), interrupt);
    SameNum(Get1(t.emr, p), event);
    SameNum(Get1(t.rtsr, p), rising);
    SameNum(Get1(t.ftsr, p), falling);
  }

  lemma FieldBounds(t: Registers, p: Position)
    ensures Get2(t.moder, p) <= 15 && Get2(t.ospeedr, p) <= 15 && Get1(t.otyper, p) <= 15 && Get2(t.pupdr, p) <= 15
    ensures Get4(Afr(t, p), Slot8(p)) <= 15 && Get4(Exticr(t, p), Slot4(p)) <= 15
    ensures Get1(t.imr, p) <= 15 && Get1(t.emr, p) <= 15 && Get1(t.rtsr, p) <= 15 && Get1(t.ftsr, p) <= 15
  {
    hide Afr, Exticr, Slot8, Slot4;
  }

  lemma NumOfBits(b: bool)
    ensures Num(Bit(b)) == One(b) && Bit(b) <= 15
    ensures Num(0) == 0 && Num(1) == 1 && Num(2) == 2 && Num(3) == 3
  {}

  lemma LegalBounds(c: Settings)
    requires Legal(c)
    ensures c.pull <= 15 && c.speed <= 15 && c.alternate <= 15
  {}

  lemma InputRegisters(s: Registers, t: Registers, c: Settings, port: bv32, p: Position)
    requires PinOf(t, p) == InitPin(PinOf(s, p), c, port) && Legal(c) && port <= 15 && (c.mode.Input? || c.mode.Analog?)
    ensures Get2(t.pupdr, p) == c.pull
    ensures Get2(t.moder, p) == (if c.mode.Input? then 0 else 3)
    ensures SameDrive(s, t, p) && SameFunction(s, t, p) && SameLine(s, t, p)
  {
    hide Legal, Num, Get1, Get2, Get4, Afr, Exticr, Slot8, Slot4, Bit;
    FieldBounds(s, p);
    LegalBounds(c);
    NumOfBits(true);
    NumOfBits(false);
    FieldsTell(t, p, if c.mode.Input? then 0 else 3, Get2(s.ospeedr, p), Get1(s.otyper, p), c.pull, Get4(Afr(s, p), Slot8(p)),
               Get4(Exticr(s, p), Slot4(p)), Get1(s.imr, p), Get1(s.emr, p), Get1(s.rtsr, p), Get1(s.ftsr, p));
  }

  lemma OutputRegisters(s: Registers, t: Registers, c: Settings, port: bv32, p: Position)
    requires PinOf(t, p) == InitPin(PinOf(s, p), c, port) && Legal(c) && port <= 15 && (c.mode.Output?)
    ensures Get2(t.pupdr, p) == c.pull
    ensures Get2(t.moder, p) == 1 && Driven(t, p, c, c.mode.openDrain) && SameFunction(s, t, p) && SameLine(s, t, p)
  {
    hide Legal, Num, Get1, Get2, Get4, Afr, Exticr, Slot8, Slot4, Bit;
    FieldBounds(s, p);
    LegalBounds(c);
    NumOfBits(true);
    NumOfBits(false);
    NumOfBits(c.mode.openDrain);
    FieldsTell(t, p, 1, c.speed, Bit(c.mode.openDrain), c.pull, Get4(Afr(s, p), Slot8(p)),
               Get4(Exticr(s, p), Slot4(p)), Get1(s.imr, p), Get1(s.emr, p), Get1(s.rtsr, p), Get1(s.ftsr, p));
  }

  lemma AlternateRegisters(s: Registers, t: Registers, c: Settings, port: bv32, p: Position)
    requires PinOf(t, p) == InitPin(PinOf(s, p), c, port) && Legal(c) && port <= 15 && (c.mode.Alternate?)
    ensures Get2(t.pupdr, p) == c.pull
    ensures Get2(t.moder, p) == 2 && Driven(t, p, c, c.mode.openDrain)
    ensures Get4(Afr(t, p), Slot8(p)) == c.alternate && SameLine(s, t, p)
  {
    hide Legal, Num, Get1, Get2, Get4, Afr, Exticr, Slot8, Slot4, Bit;
    FieldBounds(s, p);
    LegalBounds(c);
    NumOfBits(true);
    NumOfBits(false);
    NumOfBits(c.mode.openDrain);
    FieldsTell(t, p, 2, c.speed, Bit(c.mode.openDrain), c.pull, c.alternate,
               Get4(Exticr(s, p), Slot4(p)), Get1(s.imr, p), Get1(s.emr, p), Get1(s.rtsr, p), Get1(s.ftsr, p));
  }

  lemma LineRegisters(s: Registers, t: Registers, c: Settings, port: bv32, p: Position)
    requires PinOf(t, p) == InitPin(PinOf(s, p), c, port) && Legal(c) && port <= 15 && (c.mode.InterruptOn? || c.mode.EventOn?)
    ensures Get2(t.pupdr, p) == c.pull
    ensures Get2(t.moder, p) == 0 && SameDrive(s, t, p) && SameFunction(s, t, p)
    ensures LineSet(t, p, port, c.mode.InterruptOn?, c.mode.rising, c.mode.falling)
  {
    hide Legal, Num, Get1, Get2, Get4, Afr, Exticr, Slot8, Slot4, Bit, SameDrive, SameFunction, LineSet, PinOf;
    LegalBounds(c);
    LinePin(s, t, port, p, c.pull, c.mode.InterruptOn?, c.mode.rising, c.mode.falling);
  }

  lemma LinePin(s: Registers, t: Registers, port: bv32, p: Position, pull: bv32, interrupt: bool, rising: bool, falling: bool)
    requires port <= 15 && pull <= 15
    requires PinOf(t, p) == PinOf(s, p).(mode := 0, pull := Num(pull), route := Num(port), interrupt := One(interrupt),
                                         event := One(!interrupt), rising := One(rising), falling := One(falling))
    ensures Get2(t.pupdr, p) == pull && Get2(t.moder, p) == 0 && SameDrive(s, t, p) && SameFunction(s, t, p)
    ensures LineSet(t, p, port, interrupt, rising, falling)
  {
    hide Num, Get1, Get2, Get4, Afr, Exticr, Slot8, Slot4, Bit, One;
    FieldBounds(s, p);
    NumOfBits(interrupt);
    NumOfBits(!interrupt);
    NumOfBits(rising);
    NumOfBits(falling);
    FieldsTell(t, p, 0, Get2(s.ospeedr, p), Get1(s.otyper, p), pull, Get4(Afr(s, p), Slot8(p)),
               port, Bit(interrupt), Bit(!interrupt), Bit(rising), Bit(falling));
  }

  /** What a mode asks of the registers of a pin, and which fields it leaves as they were. */
  predicate Configured(s: Registers, t: Registers, p: Position, c: Settings, port: bv32) {
    && Get2(t.pupdr, p) == c.pull
    && match c.mode
       case Input => Get2(t.moder, p) == 0 && SameDrive(s, t, p) && SameFunction(s, t, p) && SameLine(s, t, p)
       case Analog => Get2(t.moder, p) == 3 && SameDrive(s, t, p) && SameFunction(s, t, p) && SameLine(s, t, p)
       case Output(openDrain) =>
         Get2(t.moder, p) == 1 && Driven(t, p, c, openDrain) && SameFunction(s, t, p) && SameLine(s, t, p)
       case Alternate(openDrain) =>
         && Get2(t.moder, p) == 2 && Driven(t, p, c, openDrain)
         && Get4(Afr(t, p), Slot8(p)) == c.alternate && SameLine(s, t, p)
       case InterruptOn(rising, falling) =>
         && Get2(t.moder, p) == 0 && SameDrive(s, t, p) && SameFunction(s, t, p)
         && LineSet(t, p, port, true, rising, falling)
       case EventOn(rising, falling) =>
         && Get2(t.moder, p) == 0 && SameDrive(s, t, p) && SameFunction(s, t, p)
         && LineSet(t, p, port, false, rising, falling)
  }

  lemma MaskedPin(s: Registers, t: Registers, mask: bv32, c: Settings, port: bv32, p: Position)
    requires Initialised(s, t, mask, c, port) && Masked(mask, p)
    ensures PinOf(t, p) == InitPin(PinOf(s, p), c, port)
  {
    hide PinOf, SameRest, Masked, InitPin;
  }

  /** Configuring a masked pin leaves in the registers exactly what its mode asks for. */
  lemma ConfiguredRegisters(s: Registers, t: Registers, mask: bv32, c: Settings, port: bv32, p: Position)
    requires Initialised(s, t, mask, c, port) && Masked(mask, p) && Legal(c) && port <= 15
    ensures Configured(s, t, p, c, port)
  {
    hide Initialised, PinOf, Num, Get1, Get2, Get4, Afr, Exticr, Slot8, Slot4, Masked, Bit, SameDrive, SameFunction, SameLine,
      Driven, LineSet, InitPin;
    MaskedPin(s, t, mask, c, port, p);
    match c.mode
    case Input => InputRegisters(s, t, c, port, p);
    case Analog => InputRegisters(s, t, c, port, p);
    case Output(_) => OutputRegisters(s, t, c, port, p);
    case Alternate(_) => AlternateRegisters(s, t, c, port, p);
    case InterruptOn(_, _) => LineRegisters(s, t, c, port, p);
    case EventOn(_, _) => LineRegisters(s, t, c, port, p);
  }

  /** A pin outside the mask keeps every field. */
  lemma OtherRegisters(s: Registers, t: Registers, mask: bv32, c: Settings, port: bv32, p: Position)
    requires Initialised(s, t, mask, c, port) && !Masked(mask, p)
    ensures Get2(t.moder, p) == Get2(s.moder, p) && Get2(t.pupdr, p) == Get2(s.pupdr, p)
    ensures SameDrive(s, t, p) && SameFunction(s, t, p) && SameLine(s, t, p)
  {
    hide Num, Get1, Get2, Get4, Afr, Exticr, Slot8, Slot4, SameRest, Masked, Bit;
    assert PinOf(t, p) == PinOf(s, p);
    FieldBounds(s, p);
    FieldsTell(t, p, Get2(s.moder, p), Get2(s.ospeedr, p), Get1(s.otyper, p), Get2(s.pupdr, p), Get4(Afr(s, p), Slot8(p)),
               Get4(Exticr(s, p), Slot4(p)), Get1(s.imr, p), Get1(s.emr, p), Get1(s.rtsr, p), Get1(s.ftsr, p));
  }

  predicate PortCleared(t: Registers, p: Position) {
    && Get2(t.moder, p) == 0 && Get2(t.ospeedr, p) == 0 && Get1(t.otyper, p) == 0 && Get2(t.pupdr, p) == 0
    && Get4(Afr(t, p), Slot8(p)) == 0
  }

  predicate LineCleared(t: Registers, p: Position) {
    && Get4(Exticr(t, p), Slot4(p)) == 0 && Get1(t.imr, p) == 0 && Get1(t.emr, p) == 0
    && Get1(t.rtsr, p) == 0 && Get1(t.ftsr, p) == 0
  }

  lemma ReleasedPin(s: Registers, t: Registers, mask: bv32, port: bv32, p: Position)
    requires Released(s, t, mask, port) && Masked(mask, p)
    ensures PinOf(t, p) == ResetPin(PinOf(s, p), port)
  {
    hide PinOf, SameRest, Masked, ResetPin;
  }

  lemma RoutedRegisters(s: Registers, t: Registers, port: bv32, p: Position)
    requires PinOf(t, p) == ResetPin(PinOf(s, p), port) && port <= 15 && Get4(Exticr(s, p), Slot4(p)) == port
    ensures PortCleared(t, p) && LineCleared(t, p)
  {
    hide Num, Get1, Get2, Get4, Afr, Exticr, Slot8, Slot4;
    NumOfBits(true);
    FieldsTell(t, p, 0, 0, 0, 0, 0, 0, 0, 0, 0, 0);
  }

  lemma UnroutedRegisters(s: Registers, t: Registers, port: bv32, p: Position)
    requires PinOf(t, p) == ResetPin(PinOf(s, p), port) && port <= 15 && Get4(Exticr(s, p), Slot4(p)) != port
    ensures PortCleared(t, p) && SameLine(s, t, p)
  {
    hide Num, Get1, Get2, Get4, Afr, Exticr, Slot8, Slot4;
    FieldBounds(s, p);
    NumOfBits(true);
    var route := Get4(Exticr(s, p), Slot4(p));
    if Num(route) == Num(port) {
      SameNum(route, port);
    }
    FieldsTell(t, p, 0, 0, 0, 0, 0, route, Get1(s.imr, p), Get1(s.emr, p), Get1(s.rtsr, p), Get1(s.ftsr, p));
  }

  /** What a release of a pin leaves in the registers: the port's fields zero, and its interrupt line off if
      and only if that was routed to this port; otherwise the line is as it was. */
  lemma ReleasedRegisters(s: Registers, t: Registers, mask: bv32, port: bv32, p: Position)
    requires Released(s, t, mask, port) && Masked(mask, p) && port <= 15
    ensures PortCleared(t, p)
    ensures if Get4(Exticr(s, p), Slot4(p)) == port then LineCleared(t, p) else SameLine(s, t, p)
  {
    hide Released, PinOf, Num, Get1, Get2, Get4, Afr, Exticr, Slot8, Slot4, Masked, ResetPin, PortCleared, LineCleared, SameLine;
    ReleasedPin(s, t, mask, port, p);
    if Get4(Exticr(s, p), Slot4(p)) == port {
      RoutedRegisters(s, t, port, p);
    } else {
      UnroutedRegisters(s, t, port, p);
    }
  }

  /** Releasing pins after configuring them zeroes all their port fields and leaves every other pin as it
      was before; an interrupt line is released exactly if the configuration routed it here or it was
      routed here all along, and is untouched otherwise. */
  lemma ReleaseAfterInit(s: Registers, t: Registers, u: Registers, mask: bv32, c: Settings, port: bv32, p: Position)
    requires Initialised(s, t, mask, c, port) && Released(t, u, mask, port)
    ensures var x, y := PinOf(s, p), PinOf(u, p);
      if !Masked(mask, p) then y == x
      else if c.mode.InterruptOn? || c.mode.EventOn? || x.route == Num(port) then y == Pin(0, 0, 0, 0, 0, 0, 0, 0, 0, 0)
      else y == x.(mode := 0, speed := 0, otype := 0, pull := 0, af := 0)
  {
    hide PinOf, SameRest, Masked, Num;
    assert PinOf(t, p) == if Masked(mask, p) then InitPin(PinOf(s, p), c, port) else PinOf(s, p);
    assert PinOf(u, p) == if Masked(mask, p) then ResetPin(PinOf(t, p), port) else PinOf(t, p);
  }

  /** The pin's interrupt line is enabled. */
  predicate Armed(s: Registers, p: Position) {
    Get1(s.imr, p) == 1
  }

  predicate Plain(m: Mode) {
    !m.InterruptOn? && !m.EventOn?
  }

  lemma ArmedOfPin(s: Registers, p: Position)
    ensures Armed(s, p) <==> PinOf(s, p).interrupt == 1
  {
    hide Slot8, Slot4, Afr, Exticr, Get2, Get4;
    assert PinOf(s, p).interrupt == Num(Get1(s.imr, p));
    OneBit(s.imr, p);
  }

  lemma OneBit(r: bv32, p: Position)
    ensures Num(Get1(r, p)) == 1 <==> Get1(r, p) == 1
  {}

  /** Which configurations leave a line armed: those that ask for an interrupt, and plain ones over an
      armed line. */
  lemma ArmedAfterInit(s: Registers, t: Registers, mask: bv32, c: Settings, port: bv32, p: Position)
    requires Initialised(s, t, mask, c, port)
    ensures Armed(t, p) <==>
      if Masked(mask, p) then c.mode.InterruptOn? || (Plain(c.mode) && Armed(s, p)) else Armed(s, p)
  {
    hide PinOf, SameRest, Masked, Num, Armed;
    ArmedOfPin(s, p);
    ArmedOfPin(t, p);
    assert PinOf(t, p) == if Masked(mask, p) then InitPin(PinOf(s, p), c, port) else PinOf(s, p);
  }

  /** Which releases leave it armed: those of a pin whose line is routed to another port. */
  lemma ArmedAfterRelease(s: Registers, t: Registers, mask: bv32, port: bv32, p: Position)
    requires Released(s, t, mask, port)
    ensures Armed(t, p) <==> Armed(s, p) && (Masked(mask, p) ==> PinOf(s, p).route != Num(port))
  {
    hide PinOf, SameRest, Masked, Num, Armed;
    ArmedOfPin(s, p);
    ArmedOfPin(t, p);
    assert PinOf(t, p) == if Masked(mask, p) then ResetPin(PinOf(s, p), port) else PinOf(s, p);
  }

  /** Turning a pin that was an interrupt source into a plain one does not disarm its line: over any
      number of configurations that are plain or concern other pins it stays as it was. */
  lemma {:induction false} PlainModeKeepsLineArmed(rs: seq<Registers>, masks: seq<bv32>, cs: seq<Settings>, port: bv32,
                                                  p: Position)
    requires |rs| == |masks| + 1 == |cs| + 1
    requires forall i :: 0 <= i < |cs| ==> Initialised(rs[i], rs[i + 1], masks[i], cs[i], port)
    requires forall i :: 0 <= i < |cs| ==> Plain(cs[i].mode) || !Masked(masks[i], p)
    ensures Armed(rs[|cs|], p) <==> Armed(rs[0], p)
    decreases |cs|
  {
    hide Initialised, Armed, Plain, Masked;
    if cs != [] {
      var n := |cs| - 1;
      PlainModeKeepsLineArmed(rs[..n + 1], masks[..n], cs[..n], port, p);
      OnePlainStep(rs[n], rs[n + 1], masks[n], cs[n], port, p);
    }
  }

  lemma OnePlainStep(s: Registers, t: Registers, mask: bv32, c: Settings, port: bv32, p: Position)
    requires Initialised(s, t, mask, c, port) && (Plain(c.mode) || !Masked(mask, p))
    ensures Armed(t, p) <==> Armed(s, p)
  {
    hide Initialised, Armed, Masked;
    ArmedAfterInit(s, t, mask, c, port, p);
  }
}
