/**
 * The reset and clock control (RCC) register block: its member layout, its
 * base address, and the four clock-enable words that gate peripheral power.
 */
module RccReg {
  import opened Bits
  import opened Layout

  /**
   * `reset_and_clock_control_t` in declaration order. The offsets are the
   * ones the comments document; a reserved array has no comment and is
   * given the offset it fills.
   */
  const RCC_LAYOUT: seq<Member> := RCC_CONTROL_AND_RESET + RCC_CLOCK_ENABLE + RCC_BACKUP_AND_PLL

  const RCC_CONTROL_AND_RESET: seq<Member> := [
    Member("cr", 4, 0x00),
    Member("pllcfgr", 4, 0x04),
    Member("cfgr", 4, 0x08),
    Member("cir", 4, 0x0C),
    Member("ahb1rstr", 4, 0x10),
    Member("ahb2rstr", 4, 0x14),
    Member("reserved0", 8, 0x18),
    Member("apb1rstr", 4, 0x20),
    Member("apb2rstr", 4, 0x24),
    Member("reserved1", 8, 0x28)]

  const RCC_CLOCK_ENABLE: seq<Member> := [
    Member("ahb1enr", 4, 0x30),
    Member("ahb2enr", 4, 0x34),
    Member("reserved2", 8, 0x38),
    Member("apb1enr", 4, 0x40),
    Member("apb2enr", 4, 0x44),
    Member("reserved3", 8, 0x48),
    Member("ahb1lpenr", 4, 0x50),
    Member("ahb2lpenr", 4, 0x54),
    Member("reserved4", 8, 0x58),
    Member("apb1lpenr", 4, 0x60),
    Member("apb2lpenr", 4, 0x64),
    Member("reserved5", 8, 0x68)]

  const RCC_BACKUP_AND_PLL: seq<Member> := [
    Member("bdcr", 4, 0x70),
    Member("csr", 4, 0x74),
    Member("reserved6", 8, 0x78),
    Member("sscgr", 4, 0x80),
    Member("plli2scfgr", 4, 0x84),
    Member("reserved7", 4, 0x88),
    Member("dckcfgr", 4, 0x8C)]

  const DCKCFGR_INDEX: nat := 28

  /** Base address of the RCC block: the AHB1 peripheral area plus 0x3800. */
  const RCC_ADDRESS: nat := 0x40000000 + 0x20000 + 0x3800

  /** The documented offset of every member is the offset the declared sizes give. */
  lemma RccOffsetsMatchComments(k: nat)
    requires k < |RCC_LAYOUT|
    ensures OffsetAt(RCC_LAYOUT, k) == RCC_LAYOUT[k].commented
  {
    assert PackedFrom(RCC_CONTROL_AND_RESET, 0);
    assert PackedFrom(RCC_CLOCK_ENABLE, 0x30);
    assert PackedFrom(RCC_BACKUP_AND_PLL, 0x70);
    PackedConcat(RCC_CONTROL_AND_RESET, RCC_CLOCK_ENABLE, 0);
    PackedConcat(RCC_CONTROL_AND_RESET + RCC_CLOCK_ENABLE, RCC_BACKUP_AND_PLL, 0);
    CommentedOffsetsHold(RCC_LAYOUT, k);
  }

  /** The block ends with `dckcfgr` at 0x8C, 0x90 bytes in all. */
  lemma RccLayoutEnd()
    ensures RCC_LAYOUT[DCKCFGR_INDEX].name == "dckcfgr"
    ensures OffsetAt(RCC_LAYOUT, DCKCFGR_INDEX) == 0x8C
    ensures StructSize(RCC_LAYOUT) == 0x90
  {
    RccOffsetsMatchComments(DCKCFGR_INDEX);
  }

  /** Every reserved gap is two words, except `reserved7`, which is one. */
  lemma ReservedGaps()
    ensures RCC_LAYOUT[6].name == "reserved0" && RCC_LAYOUT[6].bytes == 8
    ensures RCC_LAYOUT[9].name == "reserved1" && RCC_LAYOUT[9].bytes == 8
    ensures RCC_LAYOUT[12].name == "reserved2" && RCC_LAYOUT[12].bytes == 8
    ensures RCC_LAYOUT[15].name == "reserved3" && RCC_LAYOUT[15].bytes == 8
    ensures RCC_LAYOUT[18].name == "reserved4" && RCC_LAYOUT[18].bytes == 8
    ensures RCC_LAYOUT[21].name == "reserved5" && RCC_LAYOUT[21].bytes == 8
    ensures RCC_LAYOUT[24].name == "reserved6" && RCC_LAYOUT[24].bytes == 8
    ensures RCC_LAYOUT[27].name == "reserved7" && RCC_LAYOUT[27].bytes == 4
  {
  }

  lemma RccAddress()
    ensures RCC_ADDRESS == 0x40023800
  {
  }

  /** The clock-enable words that gate peripheral power. */
  datatype EnableRegister = Ahb1Enr | Ahb2Enr | Apb1Enr | Apb2Enr {

    /** Position of the register in `RCC_LAYOUT`. */
    function Index(): (k: nat)
      ensures k < |RCC_LAYOUT|
    {
      match this
      case Ahb1Enr => 10
      case Ahb2Enr => 11
      case Apb1Enr => 13
      case Apb2Enr => 14
    }

    function Name(): string {
      match this
      case Ahb1Enr => "ahb1enr"
      case Ahb2Enr => "ahb2enr"
      case Apb1Enr => "apb1enr"
      case Apb2Enr => "apb2enr"
    }

    /** Byte offset of the register inside the RCC block. */
    function Offset(): (off: nat)
      ensures RCC_LAYOUT[Index()].name == Name()
      ensures off == OffsetAt(RCC_LAYOUT, Index())
    {
      RccOffsetsMatchComments(Index());
      RCC_LAYOUT[Index()].commented
    }
  }

  /** The enable registers sit at 0x30, 0x34, 0x40 and 0x44: four distinct, whole words. */
  lemma EnableRegisterOffsets(r: EnableRegister, s: EnableRegister)
    ensures Ahb1Enr.Offset() == 0x30 && Ahb2Enr.Offset() == 0x34
    ensures Apb1Enr.Offset() == 0x40 && Apb2Enr.Offset() == 0x44
    ensures r != s ==> r.Offset() + 4 <= s.Offset() || s.Offset() + 4 <= r.Offset()
  {
  }

  /** The contents of the four enable words. */
  datatype EnableState = EnableState(ahb1enr: Word, ahb2enr: Word, apb1enr: Word, apb2enr: Word) {

    function Get(r: EnableRegister): Word {
      match r
      case Ahb1Enr => ahb1enr
      case Ahb2Enr => ahb2enr
      case Apb1Enr => apb1enr
      case Apb2Enr => apb2enr
    }

    /** The state after storing `w` into register `r`. */
    function With(r: EnableRegister, w: Word): (s: EnableState)
      ensures s.Get(r) == w
      ensures forall q :: q != r ==> s.Get(q) == Get(q)
    {
      match r
      case Ahb1Enr => this.(ahb1enr := w)
      case Ahb2Enr => this.(ahb2enr := w)
      case Apb1Enr => this.(apb1enr := w)
      case Apb2Enr => this.(apb2enr := w)
    }
  }

  /** The RCC block at `RCC_ADDRESS`; only the enable words are modelled. */
  class Rcc {
    var ahb1enr: Word
    var ahb2enr: Word
    var apb1enr: Word
    var apb2enr: Word

    constructor(initial: EnableState)
      ensures State() == initial
    {
      ahb1enr := initial.ahb1enr;
      ahb2enr := initial.ahb2enr;
      apb1enr := initial.apb1enr;
      apb2enr := initial.apb2enr;
    }

    function State(): EnableState
      reads this
    {
      EnableState(ahb1enr, ahb2enr, apb1enr, apb2enr)
    }

    /** A store to one enable word. */
    method Write(r: EnableRegister, w: Word)
      modifies this
      ensures State() == old(State()).With(r, w)
    {
      match r
      case Ahb1Enr => ahb1enr := w;
      case Ahb2Enr => ahb2enr := w;
      case Apb1Enr => apb1enr := w;
      case Apb2Enr => apb2enr := w;
    }
  }
}
