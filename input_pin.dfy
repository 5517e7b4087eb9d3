/**
 * The input pin driver: configures one GPIO pin as an input with the
 * requested pull resistor and reads its level from the input-data register.
 * It never powers the port's clock.
 */
module InputPins {
  import opened Bits
  import opened Constants
  import opened GpioReg
  import opened PinMux

  /** Input pin settings: the pull resistor to connect. */
  datatype Settings = Settings(resistor: Resistor)

  /**
   * The block after configuration: the mode field is cleared, then the pin is
   * set to input, push-pull and the given pull code, in that order.
   */
  function ConfiguredAsInput(s: GpioRegs, pin: nat, pullCode: nat): GpioRegs
    requires pin < PINS_PER_PORT
  {
    var cleared := s.(pinMode := Clear(BitMask(2 * pin, 2), s.pinMode));
    WithResistor(WithOpenDrain(WithFunction(cleared, pin, Input), pin, false), pin, pullCode)
  }

  /**
   * After configuration the pin reads as an input, push-pull, with the pull
   * code's low two bits; every other pin's fields and every register that
   * holds no field of this pin are unchanged.
   */
  lemma InputConfiguration(s: GpioRegs, pin: nat, pullCode: nat)
    requires pin < PINS_PER_PORT
    ensures var t := ConfiguredAsInput(s, pin, pullCode);
      && Extract(ModeField(pin), t.pinMode) == 0
      && !t.outputType[pin]
      && Extract(PullField(pin), t.pullUpPullDown) == pullCode % 4
      && (forall j | 0 <= j < PINS_PER_PORT && j != pin ::
            && Extract(ModeField(j), t.pinMode) == Extract(ModeField(j), s.pinMode)
            && Extract(PullField(j), t.pullUpPullDown) == Extract(PullField(j), s.pullUpPullDown)
            && t.outputType[j] == s.outputType[j])
      && t.(pinMode := s.pinMode, outputType := s.outputType, pullUpPullDown := s.pullUpPullDown) == s
  {
    PinFieldsDisjoint(pin, pin);
    var cleared := s.(pinMode := Clear(BitMask(2 * pin, 2), s.pinMode));
    ClearIsInsertZero(ModeField(pin), s.pinMode);
    forall j | 0 <= j < PINS_PER_PORT && j != pin
      ensures Extract(ModeField(j), cleared.pinMode) == Extract(ModeField(j), s.pinMode)
    {
      PinFieldsDisjoint(pin, j);
      ExtractInsertOther(ModeField(pin), ModeField(j), s.pinMode, 0);
    }
    var f := WithFunction(cleared, pin, Input);
    FunctionSetsPinFields(cleared, pin, Input);
    var d := WithOpenDrain(f, pin, false);
    var t := WithResistor(d, pin, pullCode);
    assert t.pinMode == f.pinMode && t.outputType == d.outputType;
  }

  /** An input pin of one GPIO port. */
  class InputPin {
    const port: Peripheral
    const pin: nat
    const bank: GpioBank

    predicate Valid() {
      bank.Valid() && IsGpioPort(port) && pin < PINS_PER_PORT
    }

    /** Stores the port and pin, then configures the pin. */
    constructor(port: Peripheral, pin: nat, settings: Settings, bank: GpioBank, encoding: ResistorEncoding)
      requires bank.Valid() && IsGpioPort(port) && pin < PINS_PER_PORT
      modifies bank.Block(port)
      ensures this.port == port && this.pin == pin && this.bank == bank && Valid()
      ensures bank.Block(port).State()
           == ConfiguredAsInput(old(bank.Block(port).State()), pin, encoding.Code(settings.resistor))
    {
      this.port := port;
      this.pin := pin;
      this.bank := bank;
      new;
      Configure(settings, encoding);
    }

    method Configure(settings: Settings, encoding: ResistorEncoding)
      requires Valid()
      modifies bank.Block(port)
      ensures bank.Block(port).State()
           == ConfiguredAsInput(old(bank.Block(port).State()), pin, encoding.Code(settings.resistor))
    {
      var reg := bank.Block(port);
      reg.pinMode := Clear(BitMask(2 * pin, 2), reg.pinMode);
      var p := Pin(port, pin);
      p := p.Function(bank, Input);
      p := p.OpenDrain(bank, false);
      p := p.Resistor(bank, settings.resistor, encoding);
    }

    /** The pin's level: its bit of the input-data register. */
    function Level(): (high: bool)
      requires Valid()
      reads bank.Block(port)
      ensures high <==> IsSet(bank.Block(port).inputData, pin)
    {
      ExtractSingle(pin, bank.Block(port).inputData);
      Extract(Single(pin), bank.Block(port).inputData) == 1
    }
  }
}
