/**
 * The SPI register block: its member layout, the bit fields of its two
 * control registers and its status register, and the block addresses of
 * SPI1 to SPI5.
 */
module SpiReg {
  import opened Bits
  import opened Layout
  import opened Constants

  /** `spi_reg_t`: nine words, each at the offset its comment gives. */
  const SPI_LAYOUT: seq<Member> := [
    Member("cr1", 4, 0x000),
    Member("cr2", 4, 0x004),
    Member("sr", 4, 0x008),
    Member("dr", 4, 0x00C),
    Member("crcpr", 4, 0x010),
    Member("rxcrcr", 4, 0x014),
    Member("txcrcr", 4, 0x018),
    Member("i2scfgr", 4, 0x01C),
    Member("i2spr", 4, 0x020)]

  /** The block is 0x24 bytes, and every documented offset is the real one. */
  lemma SpiOffsetsMatchComments(k: nat)
    requires k < |SPI_LAYOUT|
    ensures OffsetAt(SPI_LAYOUT, k) == SPI_LAYOUT[k].commented
    ensures StructSize(SPI_LAYOUT) == 0x24
  {
    assert PackedFrom(SPI_LAYOUT, 0);
    CommentedOffsetsHold(SPI_LAYOUT, k);
    StructSizeOfPacked(SPI_LAYOUT);
  }

  // Control register 1
  const CLOCK_PHASE: BitMask := Single(0)
  const CLOCK_POLARITY: BitMask := Single(1)
  const MASTER_SELECTION: BitMask := Single(2)
  /** Declared from bit 5 down to bit 3. */
  const BAUD_RATE_CONTROL: BitMask := Span(5, 3)
  const ENABLE: BitMask := Single(6)
  const FRAME_FORMAT: BitMask := Single(7)
  const INTERNAL_SLAVE_SELECT: BitMask := Single(8)
  const SOFTWARE_SLAVE_MANAGEMENT: BitMask := Single(9)
  const RX_ONLY: BitMask := Single(10)
  const DATA_FRAME_FORMAT: BitMask := Single(11)
  const CRC_TRANSFER_NEXT: BitMask := Single(12)
  const CRC_ENABLE: BitMask := Single(13)
  const BIDIRECTIONAL_OUTPUT_ENABLE: BitMask := Single(14)
  const BIDIRECTIONAL_MODE_ENABLE: BitMask := Single(15)

  const CR1_FIELDS: seq<BitMask> := [
    CLOCK_PHASE, CLOCK_POLARITY, MASTER_SELECTION, BAUD_RATE_CONTROL, ENABLE,
    FRAME_FORMAT, INTERNAL_SLAVE_SELECT, SOFTWARE_SLAVE_MANAGEMENT, RX_ONLY,
    DATA_FRAME_FORMAT, CRC_TRANSFER_NEXT, CRC_ENABLE,
    BIDIRECTIONAL_OUTPUT_ENABLE, BIDIRECTIONAL_MODE_ENABLE]

  /** The baud field is bits 3-5; the CR1 fields are pairwise disjoint and lie in bits 0-15. */
  lemma Cr1FieldsDisjoint(i: nat, j: nat)
    requires i < j < |CR1_FIELDS|
    ensures BAUD_RATE_CONTROL == BitMask(3, 3)
    ensures CR1_FIELDS[i].DisjointFrom(CR1_FIELDS[j])
    ensures CR1_FIELDS[j].position + CR1_FIELDS[j].width <= 16
  {
    assert Ascending(CR1_FIELDS);
    AscendingDisjoint(CR1_FIELDS, i, j);
    if j < |CR1_FIELDS| - 1 {
      AscendingDisjoint(CR1_FIELDS, j, |CR1_FIELDS| - 1);
    }
  }

  // Control register 2
  const RX_DMA_ENABLE: BitMask := Single(0)
  const TX_DMA_ENABLE: BitMask := Single(1)
  const SLAVE_SELECT_OUTPUT_ENABLE: BitMask := Single(2)
  const CR2_FRAME_FORMAT: BitMask := Single(4)
  const ERROR_INTERRUPT_ENABLE: BitMask := Single(5)
  const RX_BUFFER_EMPTY_INTERRUPT_ENABLE: BitMask := Single(6)
  const TX_BUFFER_EMPTY_INTERRUPT_ENABLE: BitMask := Single(7)

  const CR2_FIELDS: seq<BitMask> := [
    RX_DMA_ENABLE, TX_DMA_ENABLE, SLAVE_SELECT_OUTPUT_ENABLE, CR2_FRAME_FORMAT,
    ERROR_INTERRUPT_ENABLE, RX_BUFFER_EMPTY_INTERRUPT_ENABLE, TX_BUFFER_EMPTY_INTERRUPT_ENABLE]

  lemma Cr2FieldsDisjoint(i: nat, j: nat)
    requires i < j < |CR2_FIELDS|
    ensures CR2_FIELDS[i].DisjointFrom(CR2_FIELDS[j])
  {
    assert Ascending(CR2_FIELDS);
    AscendingDisjoint(CR2_FIELDS, i, j);
  }

  // Status register
  const RX_BUFFER_NOT_EMPTY: BitMask := Single(0)
  const TX_BUFFER_EMPTY: BitMask := Single(1)
  const I2S_CHANNEL_SIDE: BitMask := Single(2)
  const UNDERRUN_FLAG: BitMask := Single(3)
  const CRC_ERROR_FLAG: BitMask := Single(4)
  const MODE_FAULT_FLAG: BitMask := Single(5)
  const OVERRUN_FLAG: BitMask := Single(6)
  const BUSY_FLAG: BitMask := Single(7)
  const FRAME_FORMAT_ERROR_FLAG: BitMask := Single(8)

  const SR_FIELDS: seq<BitMask> := [
    RX_BUFFER_NOT_EMPTY, TX_BUFFER_EMPTY, I2S_CHANNEL_SIDE, UNDERRUN_FLAG,
    CRC_ERROR_FLAG, MODE_FAULT_FLAG, OVERRUN_FLAG, BUSY_FLAG, FRAME_FORMAT_ERROR_FLAG]

  lemma SrFieldsDisjoint(i: nat, j: nat)
    requires i < j < |SR_FIELDS|
    ensures RX_BUFFER_NOT_EMPTY.position == 0 && TX_BUFFER_EMPTY.position == 1 && BUSY_FLAG.position == 7
    ensures SR_FIELDS[i].DisjointFrom(SR_FIELDS[j])
  {
    assert Ascending(SR_FIELDS);
    AscendingDisjoint(SR_FIELDS, i, j);
  }

  /** The clock divisor a baud field value `n` selects: 2^(n+1). */
  function BaudDivisor(n: nat): nat {
    Pow2(n + 1)
  }

  /** The eight baud field values select the divisors 2 to 256, each twice the one before. */
  lemma BaudDivisorRange(n: nat)
    requires n < 8
    ensures 2 <= BaudDivisor(n) <= 256
    ensures BaudDivisor(0) == 2 && BaudDivisor(7) == 256
    ensures n > 0 ==> BaudDivisor(n) == 2 * BaudDivisor(n - 1)
  {
    Pow2Monotone(1, n + 1);
    Pow2Monotone(n + 1, 8);
    assert Pow2(8) == 256;
  }

  const APB1_BASE: nat := 0x4000_0000
  const APB2_BASE: nat := 0x4001_0000
  /** The APB2 peripherals end where the AHB1 area starts. */
  const APB2_END: nat := 0x4002_0000

  const SPI_REG1: nat := APB2_BASE + 0x3000
  const SPI_REG2: nat := APB1_BASE + 0x3800
  const SPI_REG3: nat := APB1_BASE + 0x3C00
  const SPI_REG4: nat := APB2_BASE + 0x3400
  const SPI_REG5: nat := APB2_BASE + 0x5000

  /** The block addresses of SPI1 to SPI5. */
  const SPI_REGS: seq<nat> := [SPI_REG1, SPI_REG2, SPI_REG3, SPI_REG4, SPI_REG5]

  /** The SPI peripherals, in the same order. */
  const SPI_PERIPHERALS: seq<Peripheral> := [Spi1, Spi2, Spi3, Spi4, Spi5]

  /** The five blocks are at distinct addresses at least one block size apart. */
  lemma SpiRegsApart(i: nat, j: nat)
    requires i < |SPI_REGS| && j < |SPI_REGS| && i != j
    ensures SPI_REGS[i] + StructSize(SPI_LAYOUT) <= SPI_REGS[j] || SPI_REGS[j] + StructSize(SPI_LAYOUT) <= SPI_REGS[i]
  {
    SpiOffsetsMatchComments(0);
  }

  /** The APB region of each block agrees with the bus its power id names. */
  lemma SpiRegionMatchesBus(k: nat)
    requires k < |SPI_REGS|
    ensures APB1_BASE <= SPI_REGS[k] < APB2_END
    ensures SPI_REGS[k] < APB2_BASE <==> Value(SPI_PERIPHERALS[k]) / BUS_ID_OFFSET == APB1_BUS / BUS_ID_OFFSET
    ensures APB2_BASE <= SPI_REGS[k] <==> Value(SPI_PERIPHERALS[k]) / BUS_ID_OFFSET == APB2_BUS / BUS_ID_OFFSET
  {
  }
}
