/**
 * The GPIO port register blocks: their member layout, their base addresses
 * on the AHB1 bus, and the lookup from a port's peripheral id to its block.
 */
module GpioReg {
  import opened Bits
  import opened Layout
  import opened Results
  import opened Constants

  /**
   * `stm32f4_gpio_t` as declared: `output_type` is an array of three words,
   * so every later member sits 8 bytes past its documented offset. The
   * offsets are the documented ones; `reset` is the high half of the word
   * at 0x018.
   */
  const GPIO_LAYOUT_AS_DECLARED: seq<Member> := [
    Member("pin_mode", 4, 0x000),
    Member("output_type", 12, 0x004),
    Member("output_speed", 4, 0x008),
    Member("pull_up_pull_down", 4, 0x00C),
    Member("input_data", 4, 0x010),
    Member("output_data", 4, 0x014),
    Member("set", 2, 0x018),
    Member("reset", 2, 0x01A),
    Member("lock", 4, 0x01C),
    Member("alt_function_low", 4, 0x020),
    Member("alt_function_high", 4, 0x024)]

  const OUTPUT_TYPE_INDEX: nat := 1
  const ALT_FUNCTION_LOW_INDEX: nat := 9

  /** The documented layout: `output_type` is one word. The rest of the model uses this one. */
  const GPIO_LAYOUT: seq<Member> := GPIO_LAYOUT_AS_DECLARED[OUTPUT_TYPE_INDEX := Member("output_type", 4, 0x004)]

  /** With a one-word `output_type`, every documented offset is the real one. */
  lemma GpioOffsetsMatchComments(k: nat)
    requires k < |GPIO_LAYOUT|
    ensures OffsetAt(GPIO_LAYOUT, k) == GPIO_LAYOUT[k].commented
    ensures StructSize(GPIO_LAYOUT) == 0x28
  {
    assert PackedFrom(GPIO_LAYOUT, 0);
    CommentedOffsetsHold(GPIO_LAYOUT, k);
    StructSizeOfPacked(GPIO_LAYOUT);
  }

  /** As declared, every member after `output_type` is 8 bytes past its comment. */
  lemma GpioDeclaredOffsetsShifted(k: nat)
    requires k < |GPIO_LAYOUT_AS_DECLARED|
    ensures OffsetAt(GPIO_LAYOUT_AS_DECLARED, k)
         == GPIO_LAYOUT_AS_DECLARED[k].commented + (if k > OUTPUT_TYPE_INDEX then 8 else 0)
    ensures OffsetAt(GPIO_LAYOUT_AS_DECLARED, ALT_FUNCTION_LOW_INDEX) == 0x028
  {
    GrownMemberShifts(GPIO_LAYOUT, GPIO_LAYOUT_AS_DECLARED, OUTPUT_TYPE_INDEX, 8, k);
    GrownMemberShifts(GPIO_LAYOUT, GPIO_LAYOUT_AS_DECLARED, OUTPUT_TYPE_INDEX, 8, ALT_FUNCTION_LOW_INDEX);
    GpioOffsetsMatchComments(k);
    GpioOffsetsMatchComments(ALT_FUNCTION_LOW_INDEX);
  }

  /** `set` and `reset` are the low and high halves of the one word at 0x018. */
  lemma SetResetShareAWord()
    ensures GPIO_LAYOUT[6].name == "set" && GPIO_LAYOUT[7].name == "reset"
    ensures OffsetAt(GPIO_LAYOUT, 6) == 0x018 && OffsetAt(GPIO_LAYOUT, 7) == 0x018 + 2
    ensures OffsetAt(GPIO_LAYOUT, 8) == 0x018 + 4
  {
    GpioOffsetsMatchComments(6);
    GpioOffsetsMatchComments(7);
    GpioOffsetsMatchComments(8);
  }

  /** Start of the GPIO port blocks on AHB1. */
  const AHB_BASE: nat := 0x40020000

  /** Size of one port's address window: 1 KiB, `1 << 10`. */
  const PORT_STRIDE: nat := 0x400

  /** `gpio_regs`: the block addresses of ports A to E and H. */
  const GPIO_REGS: seq<nat> := [
    AHB_BASE + 0x00000,
    AHB_BASE + 0x00400,
    AHB_BASE + 0x00800,
    AHB_BASE + 0x00C00,
    AHB_BASE + 0x01000,
    AHB_BASE + 0x01C00]

  /** Ports A to E are at a 1 KiB stride; the last entry, H, is 7 strides up. */
  lemma GpioRegsStride(k: nat)
    requires k < |GPIO_REGS|
    ensures GPIO_REGS[k] == AHB_BASE + (if k < 5 then k else 7) * PORT_STRIDE
  {
  }

  /** The blocks are at least one stride apart, so they never overlap. */
  lemma GpioRegsApart(i: nat, j: nat)
    requires i < j < |GPIO_REGS|
    ensures GPIO_REGS[i] + PORT_STRIDE <= GPIO_REGS[j]
    ensures GPIO_REGS[i] + StructSize(GPIO_LAYOUT) <= GPIO_REGS[j]
  {
    GpioRegsStride(i);
    GpioRegsStride(j);
    GpioOffsetsMatchComments(0);
  }

  /** The peripheral ids that name a GPIO port. */
  predicate IsGpioPort(port: Peripheral) {
    port in {GpioA, GpioB, GpioC, GpioD, GpioE, GpioH}
  }

  /**
   * `get_reg` as written: the table is indexed with the port's raw id, which
   * is in bounds only for ids below 6.
   */
  function GetRegAsWritten(port: Peripheral): (address: nat)
    requires Value(port) < |GPIO_REGS|
    ensures IsGpioPort(port) && port != GpioH
    ensures address == AHB_BASE + Value(port) * PORT_STRIDE
  {
    GPIO_REGS[Value(port)]
  }

  /** `gpio_h` has id 7, past the end of the six-entry table. */
  lemma GetRegAsWrittenMissesGpioH()
    ensures IsGpioPort(GpioH)
    ensures Value(GpioH) >= |GPIO_REGS|
  {
  }

  /** The table entry of each GPIO port: A to E by id, H in the last slot. */
  function PortSlot(port: Peripheral): (slot: Option<nat>)
    ensures slot.Some? <==> IsGpioPort(port)
    ensures slot.Some? ==> slot.value < |GPIO_REGS|
  {
    match port
    case GpioA => Some(0)
    case GpioB => Some(1)
    case GpioC => Some(2)
    case GpioD => Some(3)
    case GpioE => Some(4)
    case GpioH => Some(5)
    case _ => None
  }

  /** The block address of a GPIO port: one stride per port id above `AHB_BASE`. */
  function GetReg(port: Peripheral): (address: Option<nat>)
    ensures address.Some? <==> IsGpioPort(port)
    ensures address.Some? ==> address.value == AHB_BASE + Value(port) * PORT_STRIDE
  {
    match PortSlot(port)
    case None => None
    case Some(slot) => Some(GPIO_REGS[slot])
  }

  /** Where the written lookup is in bounds it agrees with `GetReg`. */
  lemma GetRegAgreesWhereDefined(port: Peripheral)
    requires Value(port) < |GPIO_REGS|
    ensures GetReg(port) == Some(GetRegAsWritten(port))
  {
  }

  /** Distinct ports have distinct blocks. */
  lemma GetRegInjective(p: Peripheral, q: Peripheral)
    requires IsGpioPort(p) && IsGpioPort(q) && p != q
    ensures GetReg(p).value != GetReg(q).value
  {
    ValueInjective(p, q);
  }

  /** The contents of one GPIO block; `setReset` is the word holding `set` and `reset`. */
  datatype GpioRegs = GpioRegs(
    pinMode: Word, outputType: Word, outputSpeed: Word, pullUpPullDown: Word,
    inputData: Word, outputData: Word, setReset: Word, lock: Word,
    altFunctionLow: Word, altFunctionHigh: Word)

  /** One GPIO port's register block. */
  class GpioBlock {
    const address: nat
    var pinMode: Word
    var outputType: Word
    var outputSpeed: Word
    var pullUpPullDown: Word
    var inputData: Word
    var outputData: Word
    var setReset: Word
    var lock: Word
    var altFunctionLow: Word
    var altFunctionHigh: Word

    constructor(address: nat, initial: GpioRegs)
      ensures this.address == address && State() == initial
    {
      this.address := address;
      pinMode := initial.pinMode;
      outputType := initial.outputType;
      outputSpeed := initial.outputSpeed;
      pullUpPullDown := initial.pullUpPullDown;
      inputData := initial.inputData;
      outputData := initial.outputData;
      setReset := initial.setReset;
      lock := initial.lock;
      altFunctionLow := initial.altFunctionLow;
      altFunctionHigh := initial.altFunctionHigh;
    }

    function State(): GpioRegs
      reads this
    {
      GpioRegs(pinMode, outputType, outputSpeed, pullUpPullDown, inputData, outputData,
               setReset, lock, altFunctionLow, altFunctionHigh)
    }
  }

  /** The six GPIO blocks, in the order of `GPIO_REGS`. */
  class GpioBank {
    const blocks: seq<GpioBlock>

    constructor(blocks: seq<GpioBlock>)
      ensures this.blocks == blocks
    {
      this.blocks := blocks;
    }

    /** Each block sits at its table address, and so no two are the same block. */
    predicate Valid() {
      && |blocks| == |GPIO_REGS|
      && forall k | 0 <= k < |blocks| :: blocks[k].address == GPIO_REGS[k]
    }

    /** The block `get_reg` returns for a GPIO port. */
    function Block(port: Peripheral): (b: GpioBlock)
      requires Valid() && IsGpioPort(port)
      ensures Some(b.address) == GetReg(port)
    {
      blocks[PortSlot(port).value]
    }

    /** Different ports never share a block. */
    lemma BlocksDistinct(p: Peripheral, q: Peripheral)
      requires Valid() && IsGpioPort(p) && IsGpioPort(q) && p != q
      ensures Block(p) != Block(q)
    {
      GetRegInjective(p, q);
    }
  }
}
