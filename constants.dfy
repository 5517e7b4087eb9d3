/**
 * Peripheral power-on ids. Each id is a bus base (a multiple of 32, one
 * bus per RCC enable register) plus the bit of that peripheral in the
 * bus's enable register.
 */
module Constants {
  import opened Results

  /** Number of ids between two consecutive buses, one per enable bit. */
  const BUS_ID_OFFSET: nat := 32
  const AHB1_BUS: nat := BUS_ID_OFFSET * 0
  const AHB2_BUS: nat := BUS_ID_OFFSET * 1
  const AHB3_BUS: nat := BUS_ID_OFFSET * 2
  const APB1_BUS: nat := BUS_ID_OFFSET * 3
  const APB2_BUS: nat := BUS_ID_OFFSET * 4
  /** Ids of parts outside any gated bus. */
  const BEYOND: nat := BUS_ID_OFFSET * 5

  /** The buses in the order of their bases. */
  datatype Bus = Ahb1 | Ahb2 | Ahb3 | Apb1 | Apb2 | Beyond {

    /** Index of the bus, the quotient its ids give when divided by the stride. */
    function Index(): (k: nat)
      ensures k < 6
    {
      match this
      case Ahb1 => 0
      case Ahb2 => 1
      case Ahb3 => 2
      case Apb1 => 3
      case Apb2 => 4
      case Beyond => 5
    }

    /** The id of the bus's bit 0. */
    function Base(): (b: nat)
      ensures b % BUS_ID_OFFSET == 0 && b / BUS_ID_OFFSET == Index()
    {
      match this
      case Ahb1 => AHB1_BUS
      case Ahb2 => AHB2_BUS
      case Ahb3 => AHB3_BUS
      case Apb1 => APB1_BUS
      case Apb2 => APB2_BUS
      case Beyond => BEYOND
    }
  }

  datatype Peripheral =
    | GpioA | GpioB | GpioC | GpioD | GpioE | GpioH | Crc | Dma1 | Dma2
    | UsbOtg
    | Timer2 | Timer3 | Timer4 | Timer5 | WindowWatchdog | Spi2 | Spi3 | Usart2
    | I2c1 | I2c2 | I2c3 | PowerInterface
    | Timer1 | Usart1 | Usart6 | Adc1 | Sdio | Spi1 | Spi4 | SystemConfigController
    | Timer9 | Timer10 | Timer11 | Spi5
    | Cpu | SystemTimer

  /** The power-on id of a peripheral, as the enum declares it. */
  function Value(p: Peripheral): (v: nat)
    ensures v < BEYOND + BUS_ID_OFFSET
  {
    match p
    case GpioA => AHB1_BUS + 0
    case GpioB => AHB1_BUS + 1
    case GpioC => AHB1_BUS + 2
    case GpioD => AHB1_BUS + 3
    case GpioE => AHB1_BUS + 4
    case GpioH => AHB1_BUS + 7
    case Crc => AHB1_BUS + 12
    case Dma1 => AHB1_BUS + 21
    case Dma2 => AHB1_BUS + 22
    case UsbOtg => AHB2_BUS + 7
    case Timer2 => APB1_BUS + 0
    case Timer3 => APB1_BUS + 1
    case Timer4 => APB1_BUS + 2
    case Timer5 => APB1_BUS + 3
    case WindowWatchdog => APB1_BUS + 11
    case Spi2 => APB1_BUS + 14
    case Spi3 => APB1_BUS + 15
    case Usart2 => APB1_BUS + 17
    case I2c1 => APB1_BUS + 21
    case I2c2 => APB1_BUS + 22
    case I2c3 => APB1_BUS + 23
    case PowerInterface => APB1_BUS + 28
    case Timer1 => APB2_BUS + 0
    case Usart1 => APB2_BUS + 4
    case Usart6 => APB2_BUS + 5
    case Adc1 => APB2_BUS + 8
    case Sdio => APB2_BUS + 11
    case Spi1 => APB2_BUS + 12
    case Spi4 => APB2_BUS + 13
    case SystemConfigController => APB2_BUS + 14
    case Timer9 => APB2_BUS + 16
    case Timer10 => APB2_BUS + 17
    case Timer11 => APB2_BUS + 18
    case Spi5 => APB2_BUS + 20
    case Cpu => BEYOND + 0
    case SystemTimer => BEYOND + 1
  }

  /** The bus group under which the enum lists a peripheral. */
  function ListedBus(p: Peripheral): Bus {
    match p
    case GpioA | GpioB | GpioC | GpioD | GpioE | GpioH | Crc | Dma1 | Dma2 => Ahb1
    case UsbOtg => Ahb2
    case Timer2 | Timer3 | Timer4 | Timer5 | WindowWatchdog | Spi2 | Spi3 | Usart2
      | I2c1 | I2c2 | I2c3 | PowerInterface => Apb1
    case Timer1 | Usart1 | Usart6 | Adc1 | Sdio | Spi1 | Spi4 | SystemConfigController
      | Timer9 | Timer10 | Timer11 | Spi5 => Apb2
    case Cpu | SystemTimer => Beyond
  }

  /** Every id is its bus's base plus a bit below 32, so `/ 32` and `% 32` recover both. */
  lemma ValueSplits(p: Peripheral)
    ensures Value(p) / BUS_ID_OFFSET == ListedBus(p).Index()
    ensures Value(p) % BUS_ID_OFFSET == Value(p) - ListedBus(p).Base()
  {
  }

  /** The peripheral whose id is `v`, if any. */
  function FromValue(v: nat): Option<Peripheral> {
    match v
    case 0 => Some(GpioA)
    case 1 => Some(GpioB)
    case 2 => Some(GpioC)
    case 3 => Some(GpioD)
    case 4 => Some(GpioE)
    case 7 => Some(GpioH)
    case 12 => Some(Crc)
    case 21 => Some(Dma1)
    case 22 => Some(Dma2)
    case 39 => Some(UsbOtg)
    case 96 => Some(Timer2)
    case 97 => Some(Timer3)
    case 98 => Some(Timer4)
    case 99 => Some(Timer5)
    case 107 => Some(WindowWatchdog)
    case 110 => Some(Spi2)
    case 111 => Some(Spi3)
    case 113 => Some(Usart2)
    case 117 => Some(I2c1)
    case 118 => Some(I2c2)
    case 119 => Some(I2c3)
    case 124 => Some(PowerInterface)
    case 128 => Some(Timer1)
    case 132 => Some(Usart1)
    case 133 => Some(Usart6)
    case 136 => Some(Adc1)
    case 139 => Some(Sdio)
    case 140 => Some(Spi1)
    case 141 => Some(Spi4)
    case 142 => Some(SystemConfigController)
    case 144 => Some(Timer9)
    case 145 => Some(Timer10)
    case 146 => Some(Timer11)
    case 148 => Some(Spi5)
    case 160 => Some(Cpu)
    case 161 => Some(SystemTimer)
    case _ => None
  }

  /** Every declared id is found again by `FromValue`. */
  lemma FromValueOfValue(p: Peripheral)
    ensures FromValue(Value(p)) == Some(p)
  {
  }

  /** No two peripherals share an id. */
  lemma ValueInjective(p: Peripheral, q: Peripheral)
    ensures Value(p) == Value(q) ==> p == q
  {
    FromValueOfValue(p);
    FromValueOfValue(q);
  }

  /** No peripheral is declared on AHB3, the bus with index 2. */
  lemma NoPeripheralOnAhb3(p: Peripheral)
    ensures Value(p) / BUS_ID_OFFSET != AHB3_BUS / BUS_ID_OFFSET
  {
    ValueSplits(p);
  }

  /** The GPIO ports take the first AHB1 bits, with H at bit 7. */
  lemma GpioIds()
    ensures Value(GpioA) == 0 && Value(GpioB) == 1 && Value(GpioC) == 2
    ensures Value(GpioD) == 3 && Value(GpioE) == 4 && Value(GpioH) == 7
  {
  }

  /** `cpu` and `system_timer` lie past the last enable register. */
  lemma CoreIdsBeyondBuses()
    ensures Value(Cpu) / BUS_ID_OFFSET == 5 && Value(SystemTimer) / BUS_ID_OFFSET == 5
  {
  }
}

/** Interrupt request numbers, stored as unsigned 16-bit values. */
module Irqs {

  const U16_LIMIT: nat := 0x1_0000

  datatype Irq =
    | WindowWatchdog | Pvd | Tamper | Rtc | Flash | Rcc
    | Exti0 | Exti1 | Exti2 | Exti3 | Exti4
    | Dma1Channel0 | Dma1Channel1 | Dma1Channel2 | Dma1Channel3 | Dma1Channel4 | Dma1Channel5 | Dma1Channel6
    | Adc1 | Exi9To5
    | Tim1Brk | Tim1BrkTim19 | Tim1Up | Tim1UpTim10 | Tim1TrgCom | Tim1TrgComTim11 | Tim1Cc
    | Tim2 | Tim3 | Tim4
    | I2c1Ev | I2c1Er | I2c2Ev | I2c2Er
    | Spi1 | Spi2 | Usart1 | Usart2
    | Exti15To10 | Exti17 | RtcAlarm | Exti18 | OtgFsWkup
    | Dma1Channel7 | Sdio | Tim5 | Spi3
    | Dma2Channel0 | Dma2Channel1 | Dma2Channel2 | Dma2Channel3 | Dma2Channel4
    | OtgFs | Dma2Channel5 | Dma2Channel6 | Dma2Channel7
    | Usart6 | I2c3Ev | I2c3Er | Fpu | Spi4 | Spi5
    | Max

  /** The interrupt number; `Max` takes the value after the last one declared. */
  function Number(i: Irq): (n: nat)
    ensures n < U16_LIMIT
  {
    match i
    case WindowWatchdog => 0
    case Pvd => 1
    case Tamper => 2
    case Rtc => 3
    case Flash => 4
    case Rcc => 5
    case Exti0 => 6
    case Exti1 => 7
    case Exti2 => 8
    case Exti3 => 9
    case Exti4 => 10
    case Dma1Channel0 => 11
    case Dma1Channel1 => 12
    case Dma1Channel2 => 13
    case Dma1Channel3 => 14
    case Dma1Channel4 => 15
    case Dma1Channel5 => 16
    case Dma1Channel6 => 17
    case Adc1 => 18
    case Exi9To5 => 23
    case Tim1Brk => 24
    case Tim1BrkTim19 => 24
    case Tim1Up => 25
    case Tim1UpTim10 => 25
    case Tim1TrgCom => 26
    case Tim1TrgComTim11 => 26
    case Tim1Cc => 27
    case Tim2 => 28
    case Tim3 => 29
    case Tim4 => 30
    case I2c1Ev => 31
    case I2c1Er => 32
    case I2c2Ev => 33
    case I2c2Er => 34
    case Spi1 => 35
    case Spi2 => 36
    case Usart1 => 37
    case Usart2 => 38
    case Exti15To10 => 40
    case Exti17 => 41
    case RtcAlarm => 41
    case Exti18 => 42
    case OtgFsWkup => 42
    case Dma1Channel7 => 47
    case Sdio => 49
    case Tim5 => 50
    case Spi3 => 51
    case Dma2Channel0 => 56
    case Dma2Channel1 => 57
    case Dma2Channel2 => 58
    case Dma2Channel3 => 59
    case Dma2Channel4 => 60
    case OtgFs => 67
    case Dma2Channel5 => 68
    case Dma2Channel6 => 69
    case Dma2Channel7 => 70
    case Usart6 => 71
    case I2c3Ev => 72
    case I2c3Er => 73
    case Fpu => 81
    case Spi4 => 84
    case Spi5 => 85
    case Max => 86
  }

  /** The timer 1 aliases share their numbers. */
  lemma Tim1AliasesShareNumbers()
    ensures Number(Tim1Brk) == Number(Tim1BrkTim19) == 24
    ensures Number(Tim1Up) == Number(Tim1UpTim10) == 25
    ensures Number(Tim1TrgCom) == Number(Tim1TrgComTim11) == 26
  {
  }

  /** The EXTI line aliases share their numbers. */
  lemma ExtiAliasesShareNumbers()
    ensures Number(Exti17) == Number(RtcAlarm) == 41
    ensures Number(Exti18) == Number(OtgFsWkup) == 42
  {
  }

  /** `Max` is 86, above every interrupt number. */
  lemma MaxIsAboveAll(i: Irq)
    ensures Number(Max) == 86
    ensures i != Max ==> Number(i) < Number(Max)
  {
  }
}
