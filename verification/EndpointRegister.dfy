/** The 16-bit USB endpoint register EPnR and the driver macros that write it.

    A write to EPnR is not an assignment: some bits toggle when written with one, some are
    cleared when written with zero, one is read-only and the rest are plain.  The macros read the
    register, build a word and write it.  This module gives the hardware write rule, the words the
    macros build, the abstract record of fields each macro is meant to update, and what happens
    when hardware changes the register between a macro's read and its write. */
module EndpointRegister {

  datatype Stat = Disabled | Stall | Nak | Valid
  datatype EpType = Bulk | Control | Isochronous | Interrupt

  /** The fields of one endpoint register. */
  datatype EndpointRecord = EndpointRecord(
    ctrRx: bool, dtogRx: bool, statRx: Stat,
    setup: bool, epType: EpType, kind: bool,
    ctrTx: bool, dtogTx: bool, statTx: Stat,
    ea: bv4)

  type EpNum = n: nat | n < 8

  const EP_CTR_RX: bv16 := 0x8000
  const EP_DTOG_RX: bv16 := 0x4000
  const EPRX_STAT: bv16 := 0x3000
  const EPRX_DTOG1: bv16 := 0x1000
  const EPRX_DTOG2: bv16 := 0x2000
  const EP_SETUP: bv16 := 0x0800
  const EP_T_FIELD: bv16 := 0x0600
  const EP_KIND: bv16 := 0x0100
  const EP_CTR_TX: bv16 := 0x0080
  const EP_DTOG_TX: bv16 := 0x0040
  const EPTX_STAT: bv16 := 0x0030
  const EPTX_DTOG1: bv16 := 0x0010
  const EPTX_DTOG2: bv16 := 0x0020
  const EPADDR_FIELD: bv16 := 0x000F

  /** All bits that do not toggle. */
  const EPREG_MASK: bv16 := EP_CTR_RX | EP_SETUP | EP_T_FIELD | EP_KIND | EP_CTR_TX | EPADDR_FIELD
  const EP_T_MASK: bv16 := !EP_T_FIELD & EPREG_MASK
  const EPKIND_MASK: bv16 := !EP_KIND & EPREG_MASK
  const EPTX_DTOGMASK: bv16 := EPTX_STAT | EPREG_MASK
  const EPRX_DTOGMASK: bv16 := EPRX_STAT | EPREG_MASK

  // ---------- fields of a register word ----------

  function Code(s: Stat): bv2 {
    match s case Disabled => 0 case Stall => 1 case Nak => 2 case Valid => 3
  }

  function StatOf(c: bv2): Stat {
    if c == 0 then Disabled else if c == 1 then Stall else if c == 2 then Nak else Valid
  }

  function TxStatBits(s: Stat): bv16 {
    (Code(s) as bv16) << 4
  }

  function RxStatBits(s: Stat): bv16 {
    (Code(s) as bv16) << 12
  }

  function TypeBits(t: EpType): bv16 {
    match t case Bulk => 0x0000 case Control => 0x0200 case Isochronous => 0x0400 case Interrupt => 0x0600
  }

  function TxStatOf(r: bv16): Stat {
    StatOf(((r & EPTX_STAT) >> 4) as bv2)
  }

  function RxStatOf(r: bv16): Stat {
    StatOf(((r & EPRX_STAT) >> 12) as bv2)
  }

  function TypeOf(r: bv16): EpType {
    if r & EP_T_FIELD == 0x0000 then Bulk
    else if r & EP_T_FIELD == 0x0200 then Control
    else if r & EP_T_FIELD == 0x0400 then Isochronous else Interrupt
  }

  /** The record a register word stands for. */
  function Decode(r: bv16): EndpointRecord {
    EndpointRecord(
      r & EP_CTR_RX != 0, r & EP_DTOG_RX != 0, RxStatOf(r),
      r & EP_SETUP != 0, TypeOf(r), r & EP_KIND != 0,
      r & EP_CTR_TX != 0, r & EP_DTOG_TX != 0, TxStatOf(r),
      (r & EPADDR_FIELD) as bv4)
  }

  function Bit(b: bool, mask: bv16): bv16 {
    if b then mask else 0
  }

  function Join(ctrRx: bv16, dtogRx: bv16, statRx: bv16, setup: bv16, epType: bv16,
                kind: bv16, ctrTx: bv16, dtogTx: bv16, statTx: bv16, ea: bv16): bv16 {
    ctrRx | dtogRx | statRx | setup | epType | kind | ctrTx | dtogTx | statTx | ea
  }

  /** The register word a record stands for. */
  function Encode(e: EndpointRecord): bv16 {
    Join(Bit(e.ctrRx, EP_CTR_RX), Bit(e.dtogRx, EP_DTOG_RX), RxStatBits(e.statRx),
         Bit(e.setup, EP_SETUP), TypeBits(e.epType), Bit(e.kind, EP_KIND),
         Bit(e.ctrTx, EP_CTR_TX), Bit(e.dtogTx, EP_DTOG_TX), TxStatBits(e.statTx), e.ea as bv16)
  }

  lemma BitFits(b: bool, mask: bv16)
    ensures Bit(b, mask) & !mask == 0
    ensures mask != 0 ==> (Bit(b, mask) != 0) == b
  {}

  lemma StatFits(s: Stat)
    ensures TxStatBits(s) & !EPTX_STAT == 0 && (TxStatBits(s) >> 4) as bv2 == Code(s)
    ensures RxStatBits(s) & !EPRX_STAT == 0 && (RxStatBits(s) >> 12) as bv2 == Code(s)
    ensures StatOf(Code(s)) == s
  {}

  lemma TypeFits(t: EpType)
    ensures TypeBits(t) & !EP_T_FIELD == 0
  {}

  lemma MaskOut(a: bv16, b: bv16, c: bv16, d: bv16, f: bv16, g: bv16, h: bv16, i: bv16, j: bv16, k: bv16)
    requires a & !EP_CTR_RX == 0 && b & !EP_DTOG_RX == 0 && c & !EPRX_STAT == 0 && d & !EP_SETUP == 0
    requires f & !EP_T_FIELD == 0 && g & !EP_KIND == 0 && h & !EP_CTR_TX == 0 && i & !EP_DTOG_TX == 0
    requires j & !EPTX_STAT == 0 && k & !EPADDR_FIELD == 0
    ensures var r := Join(a, b, c, d, f, g, h, i, j, k);
      && r & EP_CTR_RX == a && r & EP_DTOG_RX == b && r & EPRX_STAT == c && r & EP_SETUP == d
      && r & EP_T_FIELD == f && r & EP_KIND == g && r & EP_CTR_TX == h && r & EP_DTOG_TX == i
      && r & EPTX_STAT == j && r & EPADDR_FIELD == k
  {}

  /** Each field of an encoded record can be masked out again. */
  lemma EncodedFields(e: EndpointRecord, r: bv16)
    requires r == Encode(e)
    ensures r & EP_CTR_RX == Bit(e.ctrRx, EP_CTR_RX) && r & EP_DTOG_RX == Bit(e.dtogRx, EP_DTOG_RX)
    ensures r & EPRX_STAT == RxStatBits(e.statRx) && r & EP_SETUP == Bit(e.setup, EP_SETUP)
    ensures r & EP_T_FIELD == TypeBits(e.epType) && r & EP_KIND == Bit(e.kind, EP_KIND)
    ensures r & EP_CTR_TX == Bit(e.ctrTx, EP_CTR_TX) && r & EP_DTOG_TX == Bit(e.dtogTx, EP_DTOG_TX)
    ensures r & EPTX_STAT == TxStatBits(e.statTx) && r & EPADDR_FIELD == e.ea as bv16
  {
    BitFits(e.ctrRx, EP_CTR_RX);
    BitFits(e.dtogRx, EP_DTOG_RX);
    BitFits(e.setup, EP_SETUP);
    BitFits(e.kind, EP_KIND);
    BitFits(e.ctrTx, EP_CTR_TX);
    BitFits(e.dtogTx, EP_DTOG_TX);
    StatFits(e.statRx);
    StatFits(e.statTx);
    TypeFits(e.epType);
    AddressFits(e.ea);
    MaskOut(Bit(e.ctrRx, EP_CTR_RX), Bit(e.dtogRx, EP_DTOG_RX), RxStatBits(e.statRx), Bit(e.setup, EP_SETUP),
            TypeBits(e.epType), Bit(e.kind, EP_KIND), Bit(e.ctrTx, EP_CTR_TX), Bit(e.dtogTx, EP_DTOG_TX),
            TxStatBits(e.statTx), e.ea as bv16);
  }

  /** No information is lost either way: records and register words correspond one to one. */
  lemma DecodeOfEncode(e: EndpointRecord)
    ensures Decode(Encode(e)) == e
  {
    DecodeOfFields(e, Encode(e));
  }

  lemma DecodeOfFields(e: EndpointRecord, r: bv16)
    requires r == Encode(e)
    ensures Decode(r) == e
  {
    EncodedFields(e, r);
    BitFits(e.ctrRx, EP_CTR_RX);
    BitFits(e.dtogRx, EP_DTOG_RX);
    BitFits(e.setup, EP_SETUP);
    BitFits(e.kind, EP_KIND);
    BitFits(e.ctrTx, EP_CTR_TX);
    BitFits(e.dtogTx, EP_DTOG_TX);
    StatFits(e.statRx);
    StatFits(e.statTx);
    TypeFits(e.epType);
    AddressFits(e.ea);
  }

  lemma AddressFits(a: bv4)
    ensures (a as bv16) & !EPADDR_FIELD == 0 && (a as bv16) as bv4 == a
  {}

  lemma EncodeOfDecode(r: bv16)
    ensures Encode(Decode(r)) == r
  {
    var e := Decode(r);
    assert RxStatBits(e.statRx) == r & EPRX_STAT && TxStatBits(e.statTx) == r & EPTX_STAT by { StatBitsOfStatOf(r); }
    assert TypeBits(e.epType) == r & EP_T_FIELD by { TypeBitsOfTypeOf(r); }
    assert e.ea as bv16 == r & EPADDR_FIELD by { AddressOfWord(r); }
    SingleBits(r);
    SplitWord(r);
    assert Encode(e) == Join(r & EP_CTR_RX, r & EP_DTOG_RX, r & EPRX_STAT, r & EP_SETUP, r & EP_T_FIELD,
                 r & EP_KIND, r & EP_CTR_TX, r & EP_DTOG_TX, r & EPTX_STAT, r & EPADDR_FIELD);
  }

  lemma SingleBits(r: bv16)
    ensures Bit(r & EP_CTR_RX != 0, EP_CTR_RX) == r & EP_CTR_RX
    ensures Bit(r & EP_DTOG_RX != 0, EP_DTOG_RX) == r & EP_DTOG_RX
    ensures Bit(r & EP_SETUP != 0, EP_SETUP) == r & EP_SETUP
    ensures Bit(r & EP_KIND != 0, EP_KIND) == r & EP_KIND
    ensures Bit(r & EP_CTR_TX != 0, EP_CTR_TX) == r & EP_CTR_TX
    ensures Bit(r & EP_DTOG_TX != 0, EP_DTOG_TX) == r & EP_DTOG_TX
  {}

  lemma AddressOfWord(r: bv16)
    ensures ((r & EPADDR_FIELD) as bv4) as bv16 == r & EPADDR_FIELD
  {}

  lemma StatBitsOfStatOf(r: bv16)
    ensures TxStatBits(TxStatOf(r)) == r & EPTX_STAT
    ensures RxStatBits(RxStatOf(r)) == r & EPRX_STAT
  {
    CodeOfStatOf(((r & EPTX_STAT) >> 4) as bv2);
    CodeOfStatOf(((r & EPRX_STAT) >> 12) as bv2);
  }

  lemma TypeBitsOfTypeOf(r: bv16)
    ensures TypeBits(TypeOf(r)) == r & EP_T_FIELD
  {}

  lemma SplitWord(r: bv16)
    ensures Join(r & EP_CTR_RX, r & EP_DTOG_RX, r & EPRX_STAT, r & EP_SETUP, r & EP_T_FIELD,
                 r & EP_KIND, r & EP_CTR_TX, r & EP_DTOG_TX, r & EPTX_STAT, r & EPADDR_FIELD) == r
  {}

  // ---------- hardware write rule ----------

  const TOGGLE_BITS: bv16 := EP_DTOG_RX | EPRX_STAT | EP_DTOG_TX | EPTX_STAT
  const CTR_BITS: bv16 := EP_CTR_RX | EP_CTR_TX
  const PLAIN_BITS: bv16 := EP_T_FIELD | EP_KIND | EPADDR_FIELD

  /** The register after hardware accepts a write of `w` while it holds `current`. */
  function RegisterWrite(current: bv16, w: bv16): bv16 {
    (current & EP_SETUP)
    | (w & PLAIN_BITS)
    | ((current ^ w) & TOGGLE_BITS)
    | (current & w & CTR_BITS)
  }

  // ---------- driver macros ----------

  function AddressBits(n: EpNum): bv4 {
    if n == 0 then 0 else if n == 1 then 1 else if n == 2 then 2 else if n == 3 then 3
    else if n == 4 then 4 else if n == 5 then 5 else if n == 6 then 6 else 7
  }

  datatype Macro =
    | SetType(t: EpType)
    | SetKind
    | ClearKind
    | SetAddress(n: EpNum)
    | SetTxStatus(s: Stat)
    | SetRxStatus(s: Stat)
    | SetTxRxStatus(rx: Stat, tx: Stat)
    | ToggleRx
    | ToggleTx
    | ClearCtrRx
    | ClearCtrTx

  function Flip(v: bv16, bit: bv16, wanted: bv16): bv16 {
    if bit & wanted != 0 then v ^ bit else v
  }

  function TxStatusWord(r: bv16, s: Stat): bv16 {
    var v := r & EPTX_DTOGMASK;
    Flip(Flip(v, EPTX_DTOG1, TxStatBits(s)), EPTX_DTOG2, TxStatBits(s)) | EP_CTR_RX | EP_CTR_TX
  }

  function RxStatusWord(r: bv16, s: Stat): bv16 {
    var v := r & EPRX_DTOGMASK;
    Flip(Flip(v, EPRX_DTOG1, RxStatBits(s)), EPRX_DTOG2, RxStatBits(s)) | EP_CTR_RX | EP_CTR_TX
  }

  function TxRxStatusWord(r: bv16, rx: Stat, tx: Stat): bv16 {
    var v := r & (EPRX_DTOGMASK | EPTX_STAT);
    var v1 := Flip(Flip(v, EPRX_DTOG1, RxStatBits(rx)), EPRX_DTOG2, RxStatBits(rx));
    Flip(Flip(v1, EPTX_DTOG1, TxStatBits(tx)), EPTX_DTOG2, TxStatBits(tx)) | EP_CTR_RX | EP_CTR_TX
  }

  /** The word the macro writes after reading `r`. */
  function Word(m: Macro, r: bv16): bv16 {
    match m
    case SetType(t) => (r & EP_T_MASK) | TypeBits(t)
    case SetKind => EP_CTR_RX | EP_CTR_TX | ((r | EP_KIND) & EPREG_MASK)
    case ClearKind => EP_CTR_RX | EP_CTR_TX | (r & EPKIND_MASK)
    case SetAddress(n) => EP_CTR_RX | EP_CTR_TX | (r & EPREG_MASK) | (AddressBits(n) as bv16)
    case SetTxStatus(s) => TxStatusWord(r, s)
    case SetRxStatus(s) => RxStatusWord(r, s)
    case SetTxRxStatus(rx, tx) => TxRxStatusWord(r, rx, tx)
    case ToggleRx => EP_CTR_RX | EP_CTR_TX | EP_DTOG_RX | (r & EPREG_MASK)
    case ToggleTx => EP_CTR_RX | EP_CTR_TX | EP_DTOG_TX | (r & EPREG_MASK)
    case ClearCtrRx => r & 0x7FFF & EPREG_MASK
    case ClearCtrTx => r & 0xFF7F & EPREG_MASK
  }

  /** The field update the macro is named after. */
  function Effect(m: Macro, e: EndpointRecord): EndpointRecord {
    match m
    case SetType(t) => e.(epType := t)
    case SetKind => e.(kind := true)
    case ClearKind => e.(kind := false)
    case SetAddress(n) => e.(ea := AddressBits(n))
    case SetTxStatus(s) => e.(statTx := s)
    case SetRxStatus(s) => e.(statRx := s)
    case SetTxRxStatus(rx, tx) => e.(statRx := rx, statTx := tx)
    case ToggleRx => e.(dtogRx := !e.dtogRx)
    case ToggleTx => e.(dtogTx := !e.dtogTx)
    case ClearCtrRx => e.(ctrRx := false)
    case ClearCtrTx => e.(ctrTx := false)
  }

  function OrAddress(a: bv4, n: EpNum): bv4 {
    a | AddressBits(n)
  }

  /** What the macro does to a quiet register: the address macro only ORs. */
  function Result(m: Macro, e: EndpointRecord): EndpointRecord {
    if m.SetAddress? then e.(ea := OrAddress(e.ea, m.n)) else Effect(m, e)
  }

  /** The address macro assigns the address only over a field with no other bit set. */
  predicate Applicable(m: Macro, e: EndpointRecord) {
    m.SetAddress? ==> OrAddress(e.ea, m.n) == AddressBits(m.n)
  }

  // ---------- what a macro leaves when the register moves under it ----------

  function Toggled(s: Stat, read: Stat, wanted: Stat): Stat {
    StatOf(Code(s) ^ Code(read) ^ Code(wanted))
  }

  /** The record left when the macro read `e` and hardware held `c` at the moment of the write. */
  function RaceEffect(m: Macro, e: EndpointRecord, c: EndpointRecord): EndpointRecord {
    var base := c.(epType := e.epType, kind := e.kind, ea := e.ea);
    match m
    case SetType(t) => base.(epType := t, ctrRx := c.ctrRx && e.ctrRx, ctrTx := c.ctrTx && e.ctrTx)
    case SetKind => base.(kind := true)
    case ClearKind => base.(kind := false)
    case SetAddress(n) => base.(ea := OrAddress(e.ea, n))
    case SetTxStatus(s) => base.(statTx := Toggled(c.statTx, e.statTx, s))
    case SetRxStatus(s) => base.(statRx := Toggled(c.statRx, e.statRx, s))
    case SetTxRxStatus(rx, tx) =>
      base.(statRx := Toggled(c.statRx, e.statRx, rx), statTx := Toggled(c.statTx, e.statTx, tx))
    case ToggleRx => base.(dtogRx := !c.dtogRx)
    case ToggleTx => base.(dtogTx := !c.dtogTx)
    case ClearCtrRx => base.(ctrRx := false, ctrTx := c.ctrTx && e.ctrTx)
    case ClearCtrTx => base.(ctrTx := false, ctrRx := c.ctrRx && e.ctrRx)
  }

  /** Bit level against field level, for every register value read, every register value present
      at the write and every macro. */
  lemma RaceRefinement(m: Macro, r: bv16, c: bv16)
    ensures Decode(RegisterWrite(c, Word(m, r))) == RaceEffect(m, Decode(r), Decode(c))
  {
    hide Decode, RegisterWrite, Word, RaceEffect;
    match m
    case SetType(t) => RaceSetType(t, r, c);
    case SetKind => RaceSetKind(r, c);
    case ClearKind => RaceClearKind(r, c);
    case SetAddress(n) => RaceSetAddress(n, r, c);
    case SetTxStatus(s) => RaceSetTxStatus(s, r, c);
    case SetRxStatus(s) => RaceSetRxStatus(s, r, c);
    case SetTxRxStatus(rx, tx) => RaceSetTxRxStatus(rx, tx, r, c);
    case ToggleRx => RaceToggleRx(r, c);
    case ToggleTx => RaceToggleTx(r, c);
    case ClearCtrRx => RaceClearCtrRx(r, c);
    case ClearCtrTx => RaceClearCtrTx(r, c);
  }

  lemma RaceSetType(t: EpType, r: bv16, c: bv16)
    ensures Decode(RegisterWrite(c, Word(SetType(t), r))) == RaceEffect(SetType(t), Decode(r), Decode(c))
  {}

  lemma RaceSetKind(r: bv16, c: bv16)
    ensures Decode(RegisterWrite(c, Word(SetKind, r))) == RaceEffect(SetKind, Decode(r), Decode(c))
  {}

  lemma RaceClearKind(r: bv16, c: bv16)
    ensures Decode(RegisterWrite(c, Word(ClearKind, r))) == RaceEffect(ClearKind, Decode(r), Decode(c))
  {}

  lemma RaceToggleRx(r: bv16, c: bv16)
    ensures Decode(RegisterWrite(c, Word(ToggleRx, r))) == RaceEffect(ToggleRx, Decode(r), Decode(c))
  {}

  lemma RaceToggleTx(r: bv16, c: bv16)
    ensures Decode(RegisterWrite(c, Word(ToggleTx, r))) == RaceEffect(ToggleTx, Decode(r), Decode(c))
  {}

  lemma RaceClearCtrRx(r: bv16, c: bv16)
    ensures Decode(RegisterWrite(c, Word(ClearCtrRx, r))) == RaceEffect(ClearCtrRx, Decode(r), Decode(c))
  {}

  lemma RaceClearCtrTx(r: bv16, c: bv16)
    ensures Decode(RegisterWrite(c, Word(ClearCtrTx, r))) == RaceEffect(ClearCtrTx, Decode(r), Decode(c))
  {}

  lemma RaceSetAddress(n: EpNum, r: bv16, c: bv16)
    ensures Decode(RegisterWrite(c, Word(SetAddress(n), r))) == RaceEffect(SetAddress(n), Decode(r), Decode(c))
  {}

  lemma RaceSetTxStatus(s: Stat, r: bv16, c: bv16)
    ensures Decode(RegisterWrite(c, Word(SetTxStatus(s), r))) == RaceEffect(SetTxStatus(s), Decode(r), Decode(c))
  {
    TxStatusWordBits(r, s);
    TxStatOfXor(c, r, Code(s));
  }

  lemma RaceSetRxStatus(s: Stat, r: bv16, c: bv16)
    ensures Decode(RegisterWrite(c, Word(SetRxStatus(s), r))) == RaceEffect(SetRxStatus(s), Decode(r), Decode(c))
  {
    RxStatusWordBits(r, s);
    RxStatOfXor(c, r, Code(s));
  }

  lemma RaceSetTxRxStatus(rx: Stat, tx: Stat, r: bv16, c: bv16)
    ensures Decode(RegisterWrite(c, Word(SetTxRxStatus(rx, tx), r)))
         == RaceEffect(SetTxRxStatus(rx, tx), Decode(r), Decode(c))
  {
    TxRxStatusWordBits(r, rx, tx);
    TxStatOfXor(c, r, Code(tx));
    RxStatOfXor(c, r, Code(rx));
  }

  /** The two conditional flips amount to an exclusive or with the wanted status. */
  lemma TxStatusWordBits(r: bv16, s: Stat)
    ensures TxStatusWord(r, s) == (r & EPREG_MASK) | ((r ^ TxStatBits(s)) & EPTX_STAT) | CTR_BITS
  {
    FlipTx(r & EPTX_DTOGMASK, TxStatBits(s));
  }

  lemma RxStatusWordBits(r: bv16, s: Stat)
    ensures RxStatusWord(r, s) == (r & EPREG_MASK) | ((r ^ RxStatBits(s)) & EPRX_STAT) | CTR_BITS
  {
    FlipRx(r & EPRX_DTOGMASK, RxStatBits(s));
  }

  lemma TxRxStatusWordBits(r: bv16, rx: Stat, tx: Stat)
    ensures TxRxStatusWord(r, rx, tx)
         == (r & EPREG_MASK) | ((r ^ TxStatBits(tx)) & EPTX_STAT) | ((r ^ RxStatBits(rx)) & EPRX_STAT) | CTR_BITS
  {
    var v := r & (EPRX_DTOGMASK | EPTX_STAT);
    FlipRx(v, RxStatBits(rx));
    FlipTx(v ^ (RxStatBits(rx) & EPRX_STAT), TxStatBits(tx));
  }

  lemma FlipTx(v: bv16, wanted: bv16)
    ensures Flip(Flip(v, EPTX_DTOG1, wanted), EPTX_DTOG2, wanted) == v ^ (wanted & EPTX_STAT)
  {
    FlipIsXor(v, EPTX_DTOG1, wanted, 0x0010);
    FlipIsXor(v ^ (wanted & EPTX_DTOG1), EPTX_DTOG2, wanted, 0x0020);
  }

  lemma FlipRx(v: bv16, wanted: bv16)
    ensures Flip(Flip(v, EPRX_DTOG1, wanted), EPRX_DTOG2, wanted) == v ^ (wanted & EPRX_STAT)
  {
    FlipIsXor(v, EPRX_DTOG1, wanted, 0x1000);
    FlipIsXor(v ^ (wanted & EPRX_DTOG1), EPRX_DTOG2, wanted, 0x2000);
  }

  lemma FlipIsXor(v: bv16, bit: bv16, wanted: bv16, b: bv16)
    requires bit == b && (b == 0x0010 || b == 0x0020 || b == 0x1000 || b == 0x2000)
    ensures Flip(v, bit, wanted) == v ^ (wanted & bit)
  {
    if b == 0x0010 {
    } else if b == 0x0020 {
    } else if b == 0x1000 {
    } else {
    }
  }

  lemma TxStatOfXor(c: bv16, r: bv16, w: bv2)
    ensures TxStatOf(c ^ r ^ ((w as bv16) << 4)) == StatOf(Code(TxStatOf(c)) ^ Code(TxStatOf(r)) ^ w)
  {
    CodeOfStatOf(((c & EPTX_STAT) >> 4) as bv2);
    CodeOfStatOf(((r & EPTX_STAT) >> 4) as bv2);
  }

  lemma RxStatOfXor(c: bv16, r: bv16, w: bv2)
    ensures RxStatOf(c ^ r ^ ((w as bv16) << 12)) == StatOf(Code(RxStatOf(c)) ^ Code(RxStatOf(r)) ^ w)
  {
    CodeOfStatOf(((c & EPRX_STAT) >> 12) as bv2);
    CodeOfStatOf(((r & EPRX_STAT) >> 12) as bv2);
  }

  lemma CodeOfStatOf(x: bv2)
    ensures Code(StatOf(x)) == x
  {}
}
