/**
 * The SPI controller driver: the bus table the constructor picks pins and
 * a register block from, the control-register writes of `driver_configure`,
 * the byte loop of `driver_transfer`, and power-off on destruction.
 */
module Spi {
  import opened Bits
  import opened Results
  import opened Constants
  import opened RccReg
  import opened PowerGate
  import opened GpioReg
  import opened PinMux
  import opened SpiReg
  import opened SpiBaud

  /** An 8-bit value: a data byte, or the bus number the constructor takes. */
  type Byte = b: nat | b < 256

  /**
   * The configuration of a bus. `divider` is the 16 MHz input clock divided
   * by the requested clock rate, already truncated to 16 bits.
   */
  datatype Settings = Settings(divider: U16, clockIdlesHigh: bool, dataValidOnTrailingEdge: bool)

  /** The register block of an SPI peripheral; any other peripheral is refused. */
  function GetSpiReg(p: Peripheral): (r: Result<nat>)
    ensures r.Ok? <==> p in SPI_PERIPHERALS
    ensures forall k | 0 <= k < |SPI_PERIPHERALS| && SPI_PERIPHERALS[k] == p :: r == Ok(SPI_REGS[k])
  {
    if p == Spi1 then Ok(SPI_REG1)
    else if p == Spi2 then Ok(SPI_REG2)
    else if p == Spi3 then Ok(SPI_REG3)
    else if p == Spi4 then Ok(SPI_REG4)
    else if p == Spi5 then Ok(SPI_REG5)
    else Err(OperationNotSupported)
  }

  /** Different SPI peripherals have different register blocks. */
  lemma GetSpiRegInjective(p: Peripheral, q: Peripheral)
    requires GetSpiReg(p).Ok? && GetSpiReg(q).Ok? && p != q
    ensures GetSpiReg(p).value != GetSpiReg(q).value
  {
  }

  /** What the constructor uses for one bus number: the peripheral, its three pins and their alternate function. */
  datatype BusInfo = BusInfo(id: Peripheral, clock: Pin, dataIn: Pin, dataOut: Pin, af: PinFunction) {
    function Pins(): seq<Pin> {
      [clock, dataIn, dataOut]
    }
  }

  /** The constructor's switch on the bus number; only buses 1 to 5 exist. */
  function BusTable(bus: Byte): (r: Option<BusInfo>)
    ensures r.Some? <==> 1 <= bus <= 5
    ensures r.Some? ==> r.value.id == SPI_PERIPHERALS[bus - 1] && r.value.af.Alternate?
  {
    match bus
    case 1 => Some(BusInfo(Spi1, Pin(GpioA, 5), Pin(GpioA, 7), Pin(GpioA, 6), Alternate(5)))
    case 2 => Some(BusInfo(Spi2, Pin(GpioB, 10), Pin(GpioB, 14), Pin(GpioB, 15), Alternate(5)))
    case 3 => Some(BusInfo(Spi3, Pin(GpioB, 3), Pin(GpioB, 5), Pin(GpioB, 4), Alternate(7)))
    case 4 => Some(BusInfo(Spi4, Pin(GpioB, 0), Pin(GpioB, 8), Pin(GpioA, 12), Alternate(6)))
    case 5 => Some(BusInfo(Spi5, Pin(GpioB, 3), Pin(GpioB, 5), Pin(GpioB, 4), Alternate(6)))
    case _ => None
  }

  /**
   * Every bus routes three different, valid pins on GPIO A or B, and its
   * peripheral has a register block.
   */
  lemma BusTablePins(bus: Byte, i: nat, j: nat)
    requires BusTable(bus).Some? && i < j < 3
    ensures var info := BusTable(bus).value;
      && info.Pins()[i] != info.Pins()[j]
      && info.Pins()[i].Valid() && info.Pins()[j].Valid()
      && info.Pins()[i].port in {GpioA, GpioB} && info.Pins()[j].port in {GpioA, GpioB}
      && GetSpiReg(info.id).Ok?
  {
  }

  /**
   * Buses 3 and 5 route the same three pins of port B, with alternate
   * functions 7 and 6.
   */
  lemma Spi3AndSpi5ShareTheirPins()
    ensures BusTable(3).value.Pins() == BusTable(5).value.Pins()
    ensures BusTable(3).value.af == Alternate(7) && BusTable(5).value.af == Alternate(6)
  {
  }

  /**
   * Bus 4 takes its data input on pin 8 of port B, the one pin whose
   * alternate-function code the as-written slot choice never stores.
   */
  lemma Spi4DataInIsPinEight()
    ensures BusTable(4).value.dataIn == Pin(GpioB, 8)
    ensures AfSlotAsWritten(BusTable(4).value.dataIn.index).None?
  {
  }

  /** A truth value as the one-bit number `insert` writes. */
  function Flag(b: bool): (v: nat)
    ensures v < 2 && (v == 1 <==> b)
  {
    if b then 1 else 0
  }

  /**
   * CR1 after `driver_configure`: master mode first; then, in one write, the
   * baud field, clock phase and polarity, bidirectional output, software
   * slave management and internal slave select set, frame format cleared;
   * master mode again; finally enable set and internal slave select cleared.
   */
  function ConfiguredCr1(cr1: Word, baud: nat, s: Settings): Word {
    var master := Set(MASTER_SELECTION, cr1);
    var timing :=
      Insert(CLOCK_POLARITY,
        Insert(CLOCK_PHASE, Insert(BAUD_RATE_CONTROL, master, baud), Flag(s.dataValidOnTrailingEdge)),
        Flag(s.clockIdlesHigh));
    var chained :=
      Clear(FRAME_FORMAT,
        Set(INTERNAL_SLAVE_SELECT,
          Set(SOFTWARE_SLAVE_MANAGEMENT, Set(BIDIRECTIONAL_OUTPUT_ENABLE, timing))));
    Clear(INTERNAL_SLAVE_SELECT, Set(ENABLE, Set(MASTER_SELECTION, chained)))
  }

  /** The CR1 bits `driver_configure` writes. */
  predicate ConfigureWritesCr1(i: nat) {
    || CLOCK_PHASE.Covers(i) || CLOCK_POLARITY.Covers(i) || MASTER_SELECTION.Covers(i)
    || BAUD_RATE_CONTROL.Covers(i) || ENABLE.Covers(i) || FRAME_FORMAT.Covers(i)
    || INTERNAL_SLAVE_SELECT.Covers(i) || SOFTWARE_SLAVE_MANAGEMENT.Covers(i)
    || BIDIRECTIONAL_OUTPUT_ENABLE.Covers(i)
  }

  /** The configured baud field holds `baud`. */
  lemma ConfiguredCr1Baud(cr1: Word, baud: nat, s: Settings)
    requires baud < 8
    ensures Extract(BAUD_RATE_CONTROL, ConfiguredCr1(cr1, baud, s)) == baud
  {
    var b := BAUD_RATE_CONTROL;
    assert b == BitMask(3, 3);
    var master := Set(MASTER_SELECTION, cr1);
    var w1 := Insert(b, master, baud);
    ExtractInsert(b, master, baud);
    var w2 := Insert(CLOCK_PHASE, w1, Flag(s.dataValidOnTrailingEdge));
    ExtractInsertOther(CLOCK_PHASE, b, w1, Flag(s.dataValidOnTrailingEdge));
    var w3 := Insert(CLOCK_POLARITY, w2, Flag(s.clockIdlesHigh));
    ExtractInsertOther(CLOCK_POLARITY, b, w2, Flag(s.clockIdlesHigh));
    var w4 := Set(BIDIRECTIONAL_OUTPUT_ENABLE, w3);
    ExtractSetOther(BIDIRECTIONAL_OUTPUT_ENABLE, b, w3);
    var w5 := Set(SOFTWARE_SLAVE_MANAGEMENT, w4);
    ExtractSetOther(SOFTWARE_SLAVE_MANAGEMENT, b, w4);
    var w6 := Set(INTERNAL_SLAVE_SELECT, w5);
    ExtractSetOther(INTERNAL_SLAVE_SELECT, b, w5);
    var w7 := Clear(FRAME_FORMAT, w6);
    ExtractClearOther(FRAME_FORMAT, b, w6);
    var w8 := Set(MASTER_SELECTION, w7);
    ExtractSetOther(MASTER_SELECTION, b, w7);
    var w9 := Set(ENABLE, w8);
    ExtractSetOther(ENABLE, b, w8);
    ExtractClearOther(INTERNAL_SLAVE_SELECT, b, w9);
  }

  /** Bits outside the fields `driver_configure` writes keep their values. */
  lemma ConfiguredCr1KeepsOtherBits(cr1: Word, baud: nat, s: Settings)
    ensures var r := ConfiguredCr1(cr1, baud, s);
      forall i | 0 <= i < WORD_BITS && !ConfigureWritesCr1(i) :: r[i] == cr1[i]
  {
    var master := Set(MASTER_SELECTION, cr1);
    var baudSet := Insert(BAUD_RATE_CONTROL, master, baud);
    var phase := Insert(CLOCK_PHASE, baudSet, Flag(s.dataValidOnTrailingEdge));
    var timing := Insert(CLOCK_POLARITY, phase, Flag(s.clockIdlesHigh));
    forall i | 0 <= i < WORD_BITS && !ConfigureWritesCr1(i)
      ensures timing[i] == cr1[i]
    {
    }
  }

  /**
   * After configuring, CR1 selects master mode, is enabled, manages the
   * slave select in software with the internal select low, drives the
   * bidirectional output and sends the most significant bit first; its baud
   * field holds `baud` and its phase and polarity follow the settings.
   * Every other bit keeps its value.
   */
  lemma ConfiguredCr1Fields(cr1: Word, baud: nat, s: Settings)
    requires baud < 8
    ensures var r := ConfiguredCr1(cr1, baud, s);
      && Extract(BAUD_RATE_CONTROL, r) == baud
      && r[CLOCK_PHASE.position] == s.dataValidOnTrailingEdge
      && r[CLOCK_POLARITY.position] == s.clockIdlesHigh
      && r[MASTER_SELECTION.position] && r[ENABLE.position]
      && r[SOFTWARE_SLAVE_MANAGEMENT.position] && r[BIDIRECTIONAL_OUTPUT_ENABLE.position]
      && !r[INTERNAL_SLAVE_SELECT.position] && !r[FRAME_FORMAT.position]
      && forall i | 0 <= i < WORD_BITS && !ConfigureWritesCr1(i) :: r[i] == cr1[i]
  {
    ConfiguredCr1Baud(cr1, baud, s);
    ConfiguredCr1KeepsOtherBits(cr1, baud, s);
  }

  /** CR2 after `driver_configure`: slave select output enabled, Motorola frame format. */
  function ConfiguredCr2(cr2: Word): Word {
    Clear(CR2_FRAME_FORMAT, Set(SLAVE_SELECT_OUTPUT_ENABLE, cr2))
  }

  lemma ConfiguredCr2Fields(cr2: Word)
    ensures var r := ConfiguredCr2(cr2);
      && r[SLAVE_SELECT_OUTPUT_ENABLE.position] && !r[CR2_FRAME_FORMAT.position]
      && forall i | 0 <= i < WORD_BITS && i != SLAVE_SELECT_OUTPUT_ENABLE.position
                    && i != CR2_FRAME_FORMAT.position :: r[i] == cr2[i]
  {
  }

  /**
   * A configured bus divides the input clock by the smallest power of two
   * that is at least the clamped prescaler, so the bus never runs faster
   * than the prescaler asks and never at less than half that rate.
   */
  lemma ConfiguredDivisor(cr1: Word, s: Settings)
    requires ClampPrescaler(s.divider).Ok?
    ensures var p := ClampPrescaler(s.divider).value;
      var divisor := BaudDivisor(Extract(BAUD_RATE_CONTROL, ConfiguredCr1(cr1, BaudControl(p), s)));
      p <= divisor < 2 * p
  {
    var p := ClampPrescaler(s.divider).value;
    ConfiguredCr1Fields(cr1, BaudControl(p), s);
  }

  /**
   * One pin after the constructor's chain `function(f).open_drain(false)
   * .resistor(none)`, where `noneCode` is the value of `pin_resistor::none`.
   */
  function Routed(s: GpioRegs, pin: nat, f: PinFunction, noneCode: nat): GpioRegs
    requires pin < PINS_PER_PORT
  {
    WithResistor(WithOpenDrain(WithFunction(s, pin, f), pin, false), pin, noneCode)
  }

  /** What a block says about one pin: its mode, alternate-function code, open drain flag and pull code. */
  datatype PinFields = PinFields(mode: nat, code: nat, openDrain: bool, pull: nat)

  function FieldsOf(t: GpioRegs, pin: nat): PinFields
    requires pin < PINS_PER_PORT
  {
    PinFields(Extract(ModeField(pin), t.pinMode), Extract(AfSlotOf(pin).field, AfWord(t, AfSlotOf(pin).register)),
              t.outputType[pin], Extract(PullField(pin), t.pullUpPullDown))
  }

  /** Pin `pin` is in mode `f` with its code, push-pull, and has pull code `code % 4`. */
  predicate PinRouted(t: GpioRegs, pin: nat, f: PinFunction, code: nat)
    requires pin < PINS_PER_PORT && f.Alternate?
  {
    FieldsOf(t, pin) == PinFields(ModeCode(f), f.n, false, code % 4)
  }

  /** Pin `pin` has the same mode, code, output type and pull in `s` and `t`. */
  predicate SamePinFields(s: GpioRegs, t: GpioRegs, pin: nat)
    requires pin < PINS_PER_PORT
  {
    FieldsOf(t, pin) == FieldsOf(s, pin)
  }

  /**
   * Routing a pin gives it the alternate function, push-pull output and the
   * `none` pull code; every other pin, and every other register, is as before.
   */
  lemma RoutedFields(s: GpioRegs, pin: nat, f: PinFunction, code: nat, other: nat)
    requires pin < PINS_PER_PORT && other < PINS_PER_PORT && f.Alternate?
    ensures PinRouted(Routed(s, pin, f, code), pin, f, code)
    ensures other != pin ==> SamePinFields(s, Routed(s, pin, f, code), other)
    ensures Routed(s, pin, f, code).(pinMode := s.pinMode, outputType := s.outputType,
      pullUpPullDown := s.pullUpPullDown, altFunctionLow := s.altFunctionLow,
      altFunctionHigh := s.altFunctionHigh) == s
  {
    FunctionSetsPinFields(s, pin, f);
  }

  /** One pin of the constructor's chain, seen from one port's block: only that port's pins change. */
  function RouteStep(s: GpioRegs, port: Peripheral, pin: Pin, f: PinFunction, code: nat): GpioRegs
    requires pin.Valid()
  {
    if pin.port == port then Routed(s, pin.index, f, code) else s
  }

  /** A routing step keeps a routed pin routed and an untouched pin untouched, unless it routes that pin. */
  lemma RouteStepFields(s: GpioRegs, port: Peripheral, pin: Pin, f: PinFunction, code: nat, j: nat)
    requires pin.Valid() && f.Alternate? && j < PINS_PER_PORT
    ensures FieldsOf(RouteStep(s, port, pin, f, code), j)
         == if pin == Pin(port, j) then PinFields(ModeCode(f), f.n, false, code % 4) else FieldsOf(s, j)
  {
    if pin.port == port {
      RoutedFields(s, pin.index, f, code, j);
    }
  }

  // The driver routes a bus with three plain calls (src/spi.cpp:75-83).
  // `Router`, `Fold`, `FoldThree`, `RouteChain` and `ThreeSteps` only
  // structure the proof of what `RouteBusPort` does to a port's block;
  // they model no loop or fold of the driver.

  /** The routing step of one port, as a function of the block and the pin. */
  function Router(port: Peripheral, f: PinFunction, code: nat): (GpioRegs, Pin) -> GpioRegs {
    (s: GpioRegs, pin: Pin) => if pin.Valid() then RouteStep(s, port, pin, f, code) else s
  }

  /**
   * `s` after `step` has run on each of `pins`, first to last: on all of
   * them but the last, then on the last one.
   */
  function Fold(s: GpioRegs, pins: seq<Pin>, step: (GpioRegs, Pin) -> GpioRegs): GpioRegs
    decreases |pins|
  {
    if |pins| == 0 then s
    else if |pins| == 1 then step(s, pins[0])
    else
      var last := |pins| - 1;
      Fold(Fold(s, pins[..last], step), pins[last..], step)
  }

  /** Three pins take three steps. */
  lemma FoldThree(s: GpioRegs, pins: seq<Pin>, step: (GpioRegs, Pin) -> GpioRegs)
    requires |pins| == 3
    ensures Fold(s, pins, step) == step(step(step(s, pins[0]), pins[1]), pins[2])
  {
    var front := pins[..2];
    assert front[..1] == [pins[0]] && front[1..] == [pins[1]] && pins[2..] == [pins[2]];
    var s1 := step(s, pins[0]);
    assert Fold(s, front[..1], step) == s1;
    var s2 := step(s1, pins[1]);
    assert Fold(s1, front[1..], step) == s2;
    assert Fold(s, front, step) == s2;
    assert Fold(s2, pins[2..], step) == step(s2, pins[2]);
  }

  /** A bus's three pins are valid and on ports A and B. */
  predicate RoutableBus(info: BusInfo) {
    && info.clock.Valid() && info.dataIn.Valid() && info.dataOut.Valid()
    && info.clock.port in {GpioA, GpioB} && info.dataIn.port in {GpioA, GpioB} && info.dataOut.port in {GpioA, GpioB}
  }

  /** Every entry of the bus table can be routed. */
  lemma BusTableRoutable(bus: Byte)
    requires BusTable(bus).Some?
    ensures RoutableBus(BusTable(bus).value)
  {
  }

  /** One port's block after the clock, data-in and data-out pins are routed, in that order. */
  function RouteBusPort(s: GpioRegs, port: Peripheral, info: BusInfo, code: nat): GpioRegs {
    Fold(s, info.Pins(), Router(port, info.af, code))
  }

  /** The three routing steps of a bus written out: clock, then data-in, then data-out. */
  function RouteChain(s: GpioRegs, port: Peripheral, info: BusInfo, code: nat): GpioRegs
    requires RoutableBus(info)
  {
    var f := info.af;
    RouteStep(RouteStep(RouteStep(s, port, info.clock, f, code), port, info.dataIn, f, code), port, info.dataOut, f, code)
  }

  /** Routing a bus's pins is one routing step for the clock, one for data-in, one for data-out. */
  lemma RouteBusPortSteps(s: GpioRegs, port: Peripheral, info: BusInfo, code: nat)
    requires RoutableBus(info)
    ensures RouteBusPort(s, port, info, code) == RouteChain(s, port, info, code)
  {
    var pins := info.Pins();
    assert pins[0] == info.clock && pins[1] == info.dataIn && pins[2] == info.dataOut;
    FoldThree(s, pins, Router(port, info.af, code));
  }

  /**
   * After a bus's pins are routed, each of the port's pins that the bus uses
   * has the bus's alternate function, push-pull output and the `none` pull
   * code, and every other pin of the port keeps its mode, code, output type
   * and pull.
   */
  lemma RouteBusPortFields(s: GpioRegs, port: Peripheral, info: BusInfo, code: nat, j: nat)
    requires RoutableBus(info) && info.af.Alternate? && j < PINS_PER_PORT
    ensures Pin(port, j) in info.Pins() ==> PinRouted(RouteBusPort(s, port, info, code), j, info.af, code)
    ensures Pin(port, j) !in info.Pins() ==> SamePinFields(s, RouteBusPort(s, port, info, code), j)
  {
    RouteBusPortSteps(s, port, info, code);
    RouteChainFields(s, port, info, code, j);
  }

  /** The pins a bus routes, for the three routing steps written out. */
  lemma RouteChainFields(s: GpioRegs, port: Peripheral, info: BusInfo, code: nat, j: nat)
    requires RoutableBus(info) && info.af.Alternate? && j < PINS_PER_PORT
    ensures Pin(port, j) in info.Pins() ==> PinRouted(RouteChain(s, port, info, code), j, info.af, code)
    ensures Pin(port, j) !in info.Pins() ==> SamePinFields(s, RouteChain(s, port, info, code), j)
  {
    var f := info.af;
    var s1 := RouteStep(s, port, info.clock, f, code);
    var s2 := RouteStep(s1, port, info.dataIn, f, code);
    RouteStepFields(s, port, info.clock, f, code, j);
    RouteStepFields(s1, port, info.dataIn, f, code, j);
    var s3 := RouteStep(s2, port, info.dataOut, f, code);
    RouteStepFields(s2, port, info.dataOut, f, code, j);
    var steps := info.Pins();
    assert steps[0] == info.clock && steps[1] == info.dataIn && steps[2] == info.dataOut;
    ThreeSteps(FieldsOf(s, j), FieldsOf(s1, j), FieldsOf(s2, j), FieldsOf(s3, j), steps, Pin(port, j),
               PinFields(ModeCode(f), f.n, false, code % 4));
  }

  /**
   * Three steps that each either route pin `pin` or leave its fields as
   * they were: the pin ends routed exactly when some step routes it.
   */
  lemma ThreeSteps(f0: PinFields, f1: PinFields, f2: PinFields, f3: PinFields, steps: seq<Pin>, pin: Pin,
                   routed: PinFields)
    requires |steps| == 3
    requires f1 == if steps[0] == pin then routed else f0
    requires f2 == if steps[1] == pin then routed else f1
    requires f3 == if steps[2] == pin then routed else f2
    ensures f3 == if pin in steps then routed else f0
  {
    assert pin in steps <==> pin == steps[0] || pin == steps[1] || pin == steps[2];
  }

  /** `t` differs from `s` at most in the mode, output type, pull and alternate-function words. */
  predicate SameOtherRegisters(s: GpioRegs, t: GpioRegs) {
    t.(pinMode := s.pinMode, outputType := s.outputType, pullUpPullDown := s.pullUpPullDown,
       altFunctionLow := s.altFunctionLow, altFunctionHigh := s.altFunctionHigh) == s
  }

  lemma RouteStepKeepsOtherRegisters(s: GpioRegs, port: Peripheral, pin: Pin, f: PinFunction, code: nat)
    requires pin.Valid() && f.Alternate?
    ensures SameOtherRegisters(s, RouteStep(s, port, pin, f, code))
  {
    if pin.port == port {
      RoutedFields(s, pin.index, f, code, 0);
    }
  }

  /** Routing changes no register but the mode, output type, pull and alternate-function words. */
  lemma RouteBusPortKeepsOtherRegisters(s: GpioRegs, port: Peripheral, info: BusInfo, code: nat)
    requires RoutableBus(info) && info.af.Alternate?
    ensures SameOtherRegisters(s, RouteBusPort(s, port, info, code))
  {
    var f := info.af;
    var s1 := RouteStep(s, port, info.clock, f, code);
    var s2 := RouteStep(s1, port, info.dataIn, f, code);
    RouteStepKeepsOtherRegisters(s, port, info.clock, f, code);
    RouteStepKeepsOtherRegisters(s1, port, info.dataIn, f, code);
    RouteStepKeepsOtherRegisters(s2, port, info.dataOut, f, code);
    RouteBusPortSteps(s, port, info, code);
  }

  function Max(a: nat, b: nat): (m: nat)
    ensures m >= a && m >= b && (m == a || m == b)
  {
    if a > b then a else b
  }

  /** The bytes a transfer writes to the data register: the output, then the filler up to the longer length. */
  function Transmitted(dataOut: seq<Byte>, inLength: nat, filler: Byte): seq<Byte> {
    seq(Max(|dataOut|, inLength), i requires 0 <= i < Max(|dataOut|, inLength) =>
      if i < |dataOut| then dataOut[i] else filler)
  }

  /** A data-register read cast to a byte: its value modulo 256. */
  function LowByte(w: Word): Byte {
    ToNat(w) % 256
  }

  /** The bytes a transfer stores: the low byte of each of the first `inLength` reads. */
  function Received(replies: seq<Word>, inLength: nat): seq<Byte>
    requires inLength <= |replies|
  {
    seq(inLength, i requires 0 <= i < inLength => LowByte(replies[i]))
  }

  /**
   * The transfer sends exactly `max(|out|, |in|)` bytes: the whole output
   * first, then only filler bytes.
   */
  lemma TransmittedShape(dataOut: seq<Byte>, inLength: nat, filler: Byte)
    ensures var t := Transmitted(dataOut, inLength, filler);
      && |t| == Max(|dataOut|, inLength)
      && t[..|dataOut|] == dataOut
      && forall i | |dataOut| <= i < |t| :: t[i] == filler
  {
  }

  /** The baud value the driver computes from a clamped prescaler. */
  method ComputeBaud(prescaler: nat) returns (baud: nat)
    requires 2 <= prescaler <= 256
    ensures baud == BaudControl(prescaler)
  {
    BaudControlFormula(prescaler);
    baud := 15 - CountlZero(prescaler, 16);
    if HasSingleBit(prescaler) {
      baud := baud - 1;
    }
  }

  /** The constructor's chain on one pin: alternate function `f`, push-pull, no pull resistor. */
  method Route(pin: Pin, f: PinFunction, gpio: GpioBank, encoding: ResistorEncoding)
    requires pin.Valid() && gpio.Valid()
    modifies gpio.Block(pin.port)
    ensures gpio.Block(pin.port).State()
         == Routed(old(gpio.Block(pin.port).State()), pin.index, f, encoding.Code(NoPull))
  {
    var p := pin.Function(gpio, f);
    p := p.OpenDrain(gpio, false);
    p := p.Resistor(gpio, NoPull, encoding);
  }

  /** Routes the clock, data-in and data-out pins of a bus, in that order. */
  method RouteBus(info: BusInfo, gpio: GpioBank, encoding: ResistorEncoding)
    requires gpio.Valid() && RoutableBus(info)
    modifies gpio.Block(GpioA), gpio.Block(GpioB)
    ensures gpio.Block(GpioA).State() == RouteBusPort(old(gpio.Block(GpioA).State()), GpioA, info, encoding.Code(NoPull))
    ensures gpio.Block(GpioB).State() == RouteBusPort(old(gpio.Block(GpioB).State()), GpioB, info, encoding.Code(NoPull))
  {
    gpio.BlocksDistinct(GpioA, GpioB);
    Route(info.clock, info.af, gpio, encoding);
    Route(info.dataIn, info.af, gpio, encoding);
    Route(info.dataOut, info.af, gpio, encoding);
    RouteBusPortSteps(old(gpio.Block(GpioA).State()), GpioA, info, encoding.Code(NoPull));
    RouteBusPortSteps(old(gpio.Block(GpioB).State()), GpioB, info, encoding.Code(NoPull));
  }

  /** One SPI peripheral's register block: the two control words the driver writes. */
  class SpiBlock {
    const address: nat
    var cr1: Word
    var cr2: Word

    constructor(address: nat, cr1: Word, cr2: Word)
      ensures this.address == address && this.cr1 == cr1 && this.cr2 == cr2
    {
      this.address := address;
      this.cr1 := cr1;
      this.cr2 := cr2;
    }
  }

  /** The position of an SPI peripheral in `SPI_PERIPHERALS`. */
  function SpiIndex(p: Peripheral): (k: nat)
    requires p in SPI_PERIPHERALS
    ensures k < |SPI_PERIPHERALS| && SPI_PERIPHERALS[k] == p
  {
    if p == Spi1 then 0 else if p == Spi2 then 1 else if p == Spi3 then 2 else if p == Spi4 then 3 else 4
  }

  /** The five SPI blocks, in the order of `SPI_REGS`. */
  class SpiBank {
    const blocks: seq<SpiBlock>

    constructor(blocks: seq<SpiBlock>)
      ensures this.blocks == blocks
    {
      this.blocks := blocks;
    }

    predicate Valid() {
      && |blocks| == |SPI_REGS|
      && forall k | 0 <= k < |blocks| :: blocks[k].address == SPI_REGS[k]
    }

    /** The block `get_spi_reg` returns for an SPI peripheral. */
    function Block(p: Peripheral): (b: SpiBlock)
      requires Valid() && GetSpiReg(p).Ok?
      ensures GetSpiReg(p) == Ok(b.address) && b in blocks
    {
      blocks[SpiIndex(p)]
    }
  }

  /** An open SPI bus: its peripheral, its register block and the power switches. */
  class SpiDriver {
    const id: Peripheral
    const block: SpiBlock
    const rcc: Rcc

    predicate Valid() {
      GetSpiReg(id) == Ok(block.address)
    }

    constructor(id: Peripheral, block: SpiBlock, rcc: Rcc)
      ensures this.id == id && this.block == block && this.rcc == rcc
    {
      this.id := id;
      this.block := block;
      this.rcc := rcc;
    }

    /**
     * `driver_configure`: master mode, then the prescaler check. A prescaler
     * above 256 is refused after master mode is set; otherwise the baud
     * value is computed and CR1 and CR2 are written.
     */
    method Configure(settings: Settings) returns (r: Result<nat>)
      requires Valid()
      modifies block
      ensures r.Err? <==> settings.divider > 256
      ensures r.Err? ==> block.cr1 == Set(MASTER_SELECTION, old(block.cr1)) && block.cr2 == old(block.cr2)
      ensures r.Ok? ==> && r.value == BaudControl(ClampPrescaler(settings.divider).value)
                        && block.cr1 == ConfiguredCr1(old(block.cr1), r.value, settings)
                        && block.cr2 == ConfiguredCr2(old(block.cr2))
    {
      block.cr1 := Set(MASTER_SELECTION, block.cr1);
      var prescaler: nat := settings.divider;
      if prescaler <= 1 {
        prescaler := 2;
      } else if prescaler > 256 {
        return Err(OperationNotSupported);
      }
      var baud := ComputeBaud(prescaler);
      ghost var before := old(block.cr1);
      block.cr1 :=
        Clear(FRAME_FORMAT,
          Set(INTERNAL_SLAVE_SELECT,
            Set(SOFTWARE_SLAVE_MANAGEMENT,
              Set(BIDIRECTIONAL_OUTPUT_ENABLE,
                Insert(CLOCK_POLARITY,
                  Insert(CLOCK_PHASE,
                    Insert(BAUD_RATE_CONTROL, block.cr1, baud),
                    Flag(settings.dataValidOnTrailingEdge)),
                  Flag(settings.clockIdlesHigh))))));
      block.cr2 := Clear(CR2_FRAME_FORMAT, Set(SLAVE_SELECT_OUTPUT_ENABLE, block.cr2));
      block.cr1 := Set(MASTER_SELECTION, block.cr1);
      block.cr1 := Clear(INTERNAL_SLAVE_SELECT, Set(ENABLE, block.cr1));
      assert block.cr1 == ConfiguredCr1(before, baud, settings);
      r := Ok(baud);
    }

    /**
     * `driver_transfer`: raises the internal slave select, then for each of
     * `max(|out|, |in|)` steps writes the output byte (or the filler) to the
     * data register and reads the reply, keeping its low byte when the input
     * buffer is that long; finally lowers the internal slave select.
     * `replies` are the successive data-register reads. Returns the bytes
     * written, in order.
     */
    method Transfer(dataOut: seq<Byte>, dataIn: array<Byte>, filler: Byte, replies: seq<Word>)
      returns (sent: seq<Byte>)
      requires |replies| >= Max(|dataOut|, dataIn.Length)
      modifies block, dataIn
      ensures sent == Transmitted(dataOut, dataIn.Length, filler)
      ensures dataIn[..] == Received(replies, dataIn.Length)
      ensures block.cr1 == Clear(INTERNAL_SLAVE_SELECT, old(block.cr1)) && block.cr2 == old(block.cr2)
    {
      var maxLength := Max(dataIn.Length, |dataOut|);
      block.cr1 := Set(INTERNAL_SLAVE_SELECT, block.cr1);
      sent := [];
      var index := 0;
      while index < maxLength
        invariant index <= maxLength
        invariant sent == Transmitted(dataOut, dataIn.Length, filler)[..index]
        invariant forall k | 0 <= k < index && k < dataIn.Length :: dataIn[k] == LowByte(replies[k])
        invariant block.cr1 == Set(INTERNAL_SLAVE_SELECT, old(block.cr1)) && block.cr2 == old(block.cr2)
      {
        var byte: Byte;
        if index < |dataOut| {
          byte := dataOut[index];
        } else {
          byte := filler;
        }
        sent := sent + [byte];
        byte := LowByte(replies[index]);
        if index < dataIn.Length {
          dataIn[index] := byte;
        }
        index := index + 1;
      }
      block.cr1 := Clear(INTERNAL_SLAVE_SELECT, block.cr1);
    }

    /** `~spi`: switches the peripheral's power off. */
    method Close()
      modifies rcc
      ensures rcc.State() == Switch(old(rcc.State()), GateOf(id), false)
    {
      var power := new Power(id, rcc);
      power.Off();
    }
  
    /**
     * The end of `spi::spi`: powers the peripheral on, then configures its
     * block. A refused prescaler fails after the power switch and the
     * master-mode bit have been written.
     */
    static method Start(id: Peripheral, block: SpiBlock, settings: Settings, rcc: Rcc)
      returns (r: Result<SpiDriver>)
      requires GetSpiReg(id) == Ok(block.address)
      modifies block, rcc
      ensures rcc.State() == Switch(old(rcc.State()), GateOf(id), true)
      ensures r.Ok? <==> settings.divider <= 256
      ensures r.Ok? ==> fresh(r.value) && r.value.id == id && r.value.block == block
                        && r.value.rcc == rcc && r.value.Valid()
      ensures r.Ok? ==> && block.cr1 == ConfiguredCr1(old(block.cr1), BaudControl(ClampPrescaler(settings.divider).value), settings)
                        && block.cr2 == ConfiguredCr2(old(block.cr2))
      ensures r.Err? ==> block.cr1 == Set(MASTER_SELECTION, old(block.cr1)) && block.cr2 == old(block.cr2)
    {
      var power := new Power(id, rcc);
      power.On();
      var driver := new SpiDriver(id, block, rcc);
      var configured := driver.Configure(settings);
      if configured.Err? {
        return Err(configured.error);
      }
      r := Ok(driver);
    }

    /**
     * The body of `spi::spi` once the bus is known: routes the bus's pins,
     * then powers its peripheral on and configures it.
     */
    static method Open(info: BusInfo, settings: Settings, gpio: GpioBank, block: SpiBlock, rcc: Rcc,
                       encoding: ResistorEncoding)
      returns (r: Result<SpiDriver>)
      requires gpio.Valid() && RoutableBus(info) && GetSpiReg(info.id) == Ok(block.address)
      modifies gpio.Block(GpioA), gpio.Block(GpioB), block, rcc
      ensures gpio.Block(GpioA).State() == RouteBusPort(old(gpio.Block(GpioA).State()), GpioA, info, encoding.Code(NoPull))
      ensures gpio.Block(GpioB).State() == RouteBusPort(old(gpio.Block(GpioB).State()), GpioB, info, encoding.Code(NoPull))
      ensures rcc.State() == Switch(old(rcc.State()), GateOf(info.id), true)
      ensures r.Ok? <==> settings.divider <= 256
      ensures r.Ok? ==> fresh(r.value) && r.value.id == info.id && r.value.block == block
                        && r.value.rcc == rcc && r.value.Valid()
      ensures r.Ok? ==> && block.cr1 == ConfiguredCr1(old(block.cr1), BaudControl(ClampPrescaler(settings.divider).value), settings)
                        && block.cr2 == ConfiguredCr2(old(block.cr2))
      ensures r.Err? ==> block.cr1 == Set(MASTER_SELECTION, old(block.cr1)) && block.cr2 == old(block.cr2)
    {
      ghost var cr1, cr2 := block.cr1, block.cr2;
      RouteBus(info, gpio, encoding);
      assert block.cr1 == cr1 && block.cr2 == cr2;
      ghost var a, b := gpio.Block(GpioA).State(), gpio.Block(GpioB).State();
      r := Start(info.id, block, settings, rcc);
      assert gpio.Block(GpioA).State() == a && gpio.Block(GpioB).State() == b;
    }

    /**
     * `spi::spi`: looks the bus number up and opens that bus. An unknown bus
     * number fails before anything is written.
     */
    static method Create(bus: Byte, settings: Settings, gpio: GpioBank, spis: SpiBank, rcc: Rcc,
                         encoding: ResistorEncoding)
      returns (r: Result<SpiDriver>)
      requires gpio.Valid() && spis.Valid()
      modifies gpio.Block(GpioA), gpio.Block(GpioB), spis.blocks, rcc
      ensures BusTable(bus).None? ==> r.Err?
      ensures BusTable(bus).None? ==> unchanged(gpio.Block(GpioA), gpio.Block(GpioB), rcc) && unchanged(spis.blocks)
      ensures BusTable(bus).Some? ==>
        var info := BusTable(bus).value;
        && gpio.Block(GpioA).State() == RouteBusPort(old(gpio.Block(GpioA).State()), GpioA, info, encoding.Code(NoPull))
        && gpio.Block(GpioB).State() == RouteBusPort(old(gpio.Block(GpioB).State()), GpioB, info, encoding.Code(NoPull))
        && rcc.State() == Switch(old(rcc.State()), GateOf(info.id), true)
        && (r.Ok? <==> settings.divider <= 256)
        && (r.Ok? ==> r.value.id == info.id && r.value.Valid())
    ensures BusTable(bus).Some? ==>
      var b := spis.Block(BusTable(bus).value.id);
      && (r.Ok? ==> && r.value.block == b
                    && b.cr1 == ConfiguredCr1(old(b.cr1), BaudControl(ClampPrescaler(settings.divider).value), settings)
                    && b.cr2 == ConfiguredCr2(old(b.cr2)))
      && (r.Err? ==> b.cr1 == Set(MASTER_SELECTION, old(b.cr1)) && b.cr2 == old(b.cr2))
      && forall o | o in spis.blocks && o != b :: unchanged(o)
    {
      var entry := BusTable(bus);
      if entry.None? {
        return Err(OperationNotSupported);
      }
      BusTableRoutable(bus);
      BusTablePins(bus, 0, 1);
      r := Open(entry.value, settings, gpio, spis.Block(entry.value.id), rcc, encoding);
    }
  }
}
