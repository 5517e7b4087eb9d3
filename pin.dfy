/**
 * Pin multiplexing: the per-pin bit fields of a GPIO block that select a
 * pin's function, its pull resistor and its output drive.
 *
 * The alternate-function code of pin `n` is a 4-bit field at bit
 * `4 * (n % 8)` of `alt_function_low` for pins 0-7 and of
 * `alt_function_high` for pins 8-15, which is the register layout of the
 * hardware. The field the driver computes, at bit `2 * n` and only for pins
 * other than 8, is kept as `AfSlotAsWritten` to show where it goes wrong.
 */
module PinMux {
  import opened Bits
  import opened Results
  import opened Constants
  import opened GpioReg

  /** Pins per GPIO port. */
  const PINS_PER_PORT: nat := 16

  type AltNumber = n: nat | n < 16

  /** `pin_function`, in declaration order. */
  datatype PinFunction = Input | Output | Analog | Alternate(n: AltNumber)

  /** Position of a function in the enum. */
  function Ordinal(f: PinFunction): (k: nat)
    ensures k < 19
    ensures f.Alternate? <==> k >= 3
  {
    match f
    case Input => 0
    case Output => 1
    case Analog => 2
    case Alternate(n) => n + 3
  }

  function FromOrdinal(k: nat): Option<PinFunction> {
    if k == 0 then Some(Input)
    else if k == 1 then Some(Output)
    else if k == 2 then Some(Analog)
    else if k < 19 then Some(Alternate(k - 3))
    else None
  }

  /** The ordinals are exactly 0..18, one per function. */
  lemma OrdinalRoundTrip(f: PinFunction, k: nat)
    ensures FromOrdinal(Ordinal(f)) == Some(f)
    ensures FromOrdinal(k).Some? ==> Ordinal(FromOrdinal(k).value) == k
    ensures FromOrdinal(k).Some? <==> k < 19
  {
  }

  /** The code written to the alternate-function field: the ordinal minus 3. */
  function AltCode(f: PinFunction): (code: nat)
    requires f.Alternate?
    ensures code == f.n && code < Pow2(4)
  {
    Ordinal(f) - 3
  }

  /** The four pin modes of the mode register. */
  datatype PinMode = InputMode | OutputMode | AlternateMode | AnalogMode

  /** The mode each function selects. */
  function ModeOf(f: PinFunction): PinMode {
    match f
    case Input => InputMode
    case Output => OutputMode
    case Analog => AnalogMode
    case Alternate(_) => AlternateMode
  }

  /** The mode-register codes as the register documentation lists them. */
  function DocumentedMode(code: nat): Option<PinMode> {
    match code
    case 0 => Some(InputMode)
    case 1 => Some(OutputMode)
    case 2 => Some(AlternateMode)
    case 3 => Some(AnalogMode)
    case _ => None
  }

  /** The 2-bit code `function` writes to the mode field. */
  function ModeCode(f: PinFunction): (code: nat)
    ensures code < Pow2(2)
    ensures DocumentedMode(code) == Some(ModeOf(f))
  {
    if f == Input then 0
    else if f == Output then 1
    else if f == Analog then 3
    else 2
  }

  /** Per-pin fields: two bits at `2 * pin` for mode and pull, one bit at `pin` for output type. */
  function ModeField(pin: nat): BitMask {
    Span(2 * pin, 2 * pin + 1)
  }

  function PullField(pin: nat): BitMask {
    Span(2 * pin, 2 * pin + 1)
  }

  function OutputTypeField(pin: nat): BitMask {
    Single(pin)
  }

  /** The fields of a pin fit in a word, and those of different pins are disjoint. */
  lemma PinFieldsDisjoint(pin: nat, other: nat)
    requires pin < PINS_PER_PORT && other < PINS_PER_PORT
    ensures ModeField(pin) == BitMask(2 * pin, 2) && ModeField(pin).Fits()
    ensures PullField(pin) == BitMask(2 * pin, 2) && PullField(pin).Fits()
    ensures OutputTypeField(pin).Fits()
    ensures pin != other ==> ModeField(pin).DisjointFrom(ModeField(other))
    ensures pin != other ==> OutputTypeField(pin).DisjointFrom(OutputTypeField(other))
  {
  }

  datatype AfRegister = AfLow | AfHigh

  /** Where the alternate-function code of a pin goes. */
  datatype AfSlot = AfSlot(register: AfRegister, field: BitMask)

  /** The hardware layout: pins 0-7 in the low register, 8-15 in the high one, four bits each. */
  function AfSlotOf(pin: nat): (s: AfSlot)
    requires pin < PINS_PER_PORT
    ensures s.field.Fits() && s.field.width == 4
    ensures s.register == AfLow <==> pin < 8
  {
    AfSlot(if pin < 8 then AfLow else AfHigh, BitMask(4 * (pin % 8), 4))
  }

  /** Different pins never share alternate-function bits. */
  lemma AfSlotsDisjoint(pin: nat, other: nat)
    requires pin < PINS_PER_PORT && other < PINS_PER_PORT && pin != other
    requires AfSlotOf(pin).register == AfSlotOf(other).register
    ensures AfSlotOf(pin).field.DisjointFrom(AfSlotOf(other).field)
  {
  }

  /**
   * The driver's choice: the field between bits `2 * pin` and `2 * pin + 3`,
   * of the low register for pins below 8 and of the high one above 8.
   */
  function AfSlotAsWritten(pin: nat): (s: Option<AfSlot>)
    ensures s.Some? <==> pin != 8
    ensures s.Some? ==> s.value.field.position == 2 * pin && s.value.field.width == 4
  {
    if pin < 8 then Some(AfSlot(AfLow, Span(2 * pin, 2 * pin + 3)))
    else if pin > 8 then Some(AfSlot(AfHigh, Span(2 * pin, 2 * pin + 3)))
    else None
  }

  /**
   * Where the driver's slot goes wrong: pin 8 gets none, pins 0 and 1 share
   * bits 2-3, pin 9 lands on bits 18-21 instead of 4-7, and pin 15's field
   * runs past bit 31.
   */
  lemma AfSlotAsWrittenDiscrepancies()
    ensures AfSlotAsWritten(8).None? && AfSlotOf(8) == AfSlot(AfHigh, BitMask(0, 4))
    ensures !AfSlotAsWritten(0).value.field.DisjointFrom(AfSlotAsWritten(1).value.field)
    ensures AfSlotAsWritten(0).value.register == AfSlotAsWritten(1).value.register
    ensures AfSlotAsWritten(9).value.field == BitMask(18, 4) && AfSlotOf(9).field == BitMask(4, 4)
    ensures !AfSlotAsWritten(15).value.field.Fits()
  {
  }

  /** The alternate-function word a slot refers to. */
  function AfWord(s: GpioRegs, r: AfRegister): Word {
    if r == AfLow then s.altFunctionLow else s.altFunctionHigh
  }

  function WithAfWord(s: GpioRegs, r: AfRegister, w: Word): (t: GpioRegs)
    ensures AfWord(t, r) == w
    ensures forall q: AfRegister | q != r :: AfWord(t, q) == AfWord(s, q)
    ensures t.(altFunctionLow := s.altFunctionLow, altFunctionHigh := s.altFunctionHigh) == s
  {
    if r == AfLow then s.(altFunctionLow := w) else s.(altFunctionHigh := w)
  }

  /** The block after `function(f)` on pin `pin`. */
  function WithFunction(s: GpioRegs, pin: nat, f: PinFunction): GpioRegs
    requires pin < PINS_PER_PORT
  {
    var moded := s.(pinMode := Insert(ModeField(pin), s.pinMode, ModeCode(f)));
    if f.Alternate? then
      var slot := AfSlotOf(pin);
      WithAfWord(moded, slot.register, Insert(slot.field, AfWord(moded, slot.register), AltCode(f)))
    else
      moded
  }

  /**
   * `function(f)` gives the pin the mode of `f` and, for an alternate
   * function, its code; every other pin's mode and code, and every other
   * register, keep their values.
   */
  lemma FunctionSetsPinFields(s: GpioRegs, pin: nat, f: PinFunction)
    requires pin < PINS_PER_PORT
    ensures var t := WithFunction(s, pin, f);
      && Extract(ModeField(pin), t.pinMode) == ModeCode(f)
      && (forall j | 0 <= j < PINS_PER_PORT && j != pin ::
            Extract(ModeField(j), t.pinMode) == Extract(ModeField(j), s.pinMode))
      && (f.Alternate? ==> Extract(AfSlotOf(pin).field, AfWord(t, AfSlotOf(pin).register)) == f.n)
      && (forall j | 0 <= j < PINS_PER_PORT && j != pin ::
            Extract(AfSlotOf(j).field, AfWord(t, AfSlotOf(j).register))
              == Extract(AfSlotOf(j).field, AfWord(s, AfSlotOf(j).register)))
      && (!f.Alternate? ==> t.altFunctionLow == s.altFunctionLow && t.altFunctionHigh == s.altFunctionHigh)
      && t.(pinMode := s.pinMode, altFunctionLow := s.altFunctionLow, altFunctionHigh := s.altFunctionHigh) == s
  {
    PinFieldsDisjoint(pin, pin);
    var moded := s.(pinMode := Insert(ModeField(pin), s.pinMode, ModeCode(f)));
    ExtractInsert(ModeField(pin), s.pinMode, ModeCode(f));
    forall j | 0 <= j < PINS_PER_PORT && j != pin
      ensures Extract(ModeField(j), moded.pinMode) == Extract(ModeField(j), s.pinMode)
    {
      PinFieldsDisjoint(pin, j);
      ExtractInsertOther(ModeField(pin), ModeField(j), s.pinMode, ModeCode(f));
    }
    if f.Alternate? {
      var slot := AfSlotOf(pin);
      var t := WithFunction(s, pin, f);
      ExtractInsert(slot.field, AfWord(moded, slot.register), AltCode(f));
      forall j | 0 <= j < PINS_PER_PORT && j != pin
        ensures Extract(AfSlotOf(j).field, AfWord(t, AfSlotOf(j).register))
             == Extract(AfSlotOf(j).field, AfWord(s, AfSlotOf(j).register))
      {
        if AfSlotOf(j).register == slot.register {
          AfSlotsDisjoint(pin, j);
          ExtractInsertOther(slot.field, AfSlotOf(j).field, AfWord(moded, slot.register), AltCode(f));
        }
      }
    }
  }

  /** The block after `resistor(r)`, where `code` is the resistor's value: its low two bits land in the pull field. */
  function WithResistor(s: GpioRegs, pin: nat, code: nat): (t: GpioRegs)
    requires pin < PINS_PER_PORT
    ensures Extract(PullField(pin), t.pullUpPullDown) == code % 4
    ensures forall j | 0 <= j < PINS_PER_PORT && j != pin ::
      Extract(PullField(j), t.pullUpPullDown) == Extract(PullField(j), s.pullUpPullDown)
    ensures t.(pullUpPullDown := s.pullUpPullDown) == s
  {
    PinFieldsDisjoint(pin, pin);
    var t := s.(pullUpPullDown := Insert(PullField(pin), s.pullUpPullDown, code));
    ExtractInsertTwoBits(PullField(pin), s.pullUpPullDown, code);
    forall j | 0 <= j < PINS_PER_PORT && j != pin
      ensures Extract(PullField(j), t.pullUpPullDown) == Extract(PullField(j), s.pullUpPullDown)
    {
      PinFieldsDisjoint(pin, j);
      ExtractInsertOther(PullField(pin), PullField(j), s.pullUpPullDown, code);
    }
    t
  }

  /** The block after `open_drain(enable)`: only the pin's output-type bit changes. */
  function WithOpenDrain(s: GpioRegs, pin: nat, enable: bool): (t: GpioRegs)
    requires pin < PINS_PER_PORT
    ensures t.outputType[pin] == enable
    ensures forall j | 0 <= j < WORD_BITS && j != pin :: t.outputType[j] == s.outputType[j]
    ensures t.(outputType := s.outputType) == s
  {
    s.(outputType := Insert(OutputTypeField(pin), s.outputType, if enable then 1 else 0))
  }

  /**
   * The resistor modes, and the value each one has as the number the driver
   * writes into the pull field.
   */
  datatype Resistor = NoPull | PullUp | PullDown

  datatype ResistorEncoding = ResistorEncoding(none: nat, pullUp: nat, pullDown: nat) {
    function Code(r: Resistor): nat {
      match r
      case NoPull => none
      case PullUp => pullUp
      case PullDown => pullDown
    }
  }

  /** The pull codes the register documentation gives: 00 none, 01 pull-up, 10 pull-down. */
  const DOCUMENTED_PULL_CODES: ResistorEncoding := ResistorEncoding(0, 1, 2)

  /** With the documented codes, each resistor mode reads back as its own, distinct code. */
  lemma DocumentedPullCodesReadBack(s: GpioRegs, pin: nat, r: Resistor, q: Resistor)
    requires pin < PINS_PER_PORT
    ensures Extract(PullField(pin), WithResistor(s, pin, DOCUMENTED_PULL_CODES.Code(r)).pullUpPullDown)
         == DOCUMENTED_PULL_CODES.Code(r)
    ensures r != q ==> DOCUMENTED_PULL_CODES.Code(r) != DOCUMENTED_PULL_CODES.Code(q)
  {
  }

  /** A pin descriptor: a port and a pin number in it, fixed once made. */
  datatype Pin = Pin(port: Peripheral, index: nat) {

    predicate Valid() {
      IsGpioPort(port) && index < PINS_PER_PORT
    }

    /** `function`: sets the pin's mode and, for an alternate function, its code. */
    method Function(bank: GpioBank, f: PinFunction) returns (same: Pin)
      requires Valid() && bank.Valid()
      modifies bank.Block(port)
      ensures same == this
      ensures bank.Block(port).State() == WithFunction(old(bank.Block(port).State()), index, f)
    {
      var reg := bank.Block(port);
      ghost var before := reg.State();
      var mode := ModeField(index);
      if f == Input {
        reg.pinMode := Insert(mode, reg.pinMode, 0);
      } else if f == Output {
        reg.pinMode := Insert(mode, reg.pinMode, 1);
      } else if f == Analog {
        reg.pinMode := Insert(mode, reg.pinMode, 3);
      } else {
        reg.pinMode := Insert(mode, reg.pinMode, 2);
        var code := Ordinal(f) - 3;
        assert code == AltCode(f);
        var slot := AfSlotOf(index);
        ghost var moded := before.(pinMode := reg.pinMode);
        assert reg.State() == moded;
        if slot.register == AfLow {
          reg.altFunctionLow := Insert(slot.field, reg.altFunctionLow, code);
        } else {
          reg.altFunctionHigh := Insert(slot.field, reg.altFunctionHigh, code);
        }
        assert reg.State() == WithAfWord(moded, slot.register, Insert(slot.field, AfWord(moded, slot.register), code));
      }
      assert reg.State() == WithFunction(before, index, f);
      same := this;
    }

    /** `resistor`: writes the resistor's code into the pin's pull field. */
    method Resistor(bank: GpioBank, r: Resistor, encoding: ResistorEncoding) returns (same: Pin)
      requires Valid() && bank.Valid()
      modifies bank.Block(port)
      ensures same == this
      ensures bank.Block(port).State() == WithResistor(old(bank.Block(port).State()), index, encoding.Code(r))
    {
      var reg := bank.Block(port);
      reg.pullUpPullDown := Insert(PullField(index), reg.pullUpPullDown, encoding.Code(r));
      same := this;
    }

    /** `open_drain`: sets or clears the pin's output-type bit. */
    method OpenDrain(bank: GpioBank, enable: bool) returns (same: Pin)
      requires Valid() && bank.Valid()
      modifies bank.Block(port)
      ensures same == this
      ensures bank.Block(port).State() == WithOpenDrain(old(bank.Block(port).State()), index, enable)
    {
      var reg := bank.Block(port);
      reg.outputType := Insert(OutputTypeField(index), reg.outputType, if enable then 1 else 0);
      same := this;
    }
  }

  /** The default descriptor: port value 0, pin 0. */
  const DEFAULT_PIN: Pin := Pin(GpioA, 0)

  lemma DefaultPin()
    ensures Value(DEFAULT_PIN.port) == 0 && DEFAULT_PIN.index == 0
    ensures DEFAULT_PIN.Valid()
  {
  }
}
