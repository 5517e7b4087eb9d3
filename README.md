# libhal-stm32f4 driver core in Dafny

This project models the register-level core of the libhal STM32F4 driver layer:

- how a peripheral id turns into a clock-enable switch, and what
  `power::on`, `off` and `is_on` do with it;
- the register layouts of the RCC, GPIO and SPI blocks, and their base
  addresses;
- the pin multiplexer (`pin::function`, `resistor`, `open_drain`) and the
  input pin driver built on it;
- the SPI controller driver: its bus table, the prescaler-to-baud encoding,
  the control-register writes of `driver_configure`, the byte loop of
  `driver_transfer`, and power-off on destruction.

A register word is a `Word`: 32 booleans, least significant bit first. It is
shown to be exactly an unsigned 32-bit number (`Bits.WordRoundTrip`). A bit
field is a `BitMask(position, width)`. `Insert`, `Extract`, `Set` and `Clear`
are the `bit_modify`/`bit_extract` operations the drivers use.

A register block whose words the driver updates is a class with one field per
word: `RccReg.Rcc`, `GpioReg.GpioBlock` and `Spi.SpiBlock`. The driver
methods are methods on those classes with `modifies` frames. Each method's
new state is tied to a pure function of the old state (`PowerGate.Switch`,
`PinMux.WithFunction`, `Spi.ConfiguredCr1`, `Spi.RouteBusPort`, ...). The
lemmas prove what the source promises about those functions.

The files, by module:

- `bits.dfy`: words and bit fields.
- `results.dfy`: `Option` and `Result`.
- `layout.dfy`: struct offsets computed from declared member sizes.
- `constants.dfy`: bus constants, peripheral ids and interrupt numbers.
- `rcc_reg.dfy`: the RCC layout and its enable words.
- `power.dfy`: the power switch.
- `gpio_reg.dfy`: the GPIO layout, address table and `get_reg`.
- `pin.dfy`: the pin multiplexer.
- `input_pin.dfy`: the input pin driver.
- `spi_reg.dfy`: the SPI layout, masks and addresses.
- `spi_baud.dfy`: prescaler clamping and baud encoding.
- `spi.dfy`: the SPI driver.

`src/pin.cpp` does not compile as written:

- lines 30 and 42 use the run-time `m_pin` as a template argument;
- line 55 applies `->` to the port enum;
- line 68 names an undefined `pin_open_drain`.

The model follows what these lines evidently mean:

- `function` writes the 2-bit mode field at bit `2 * pin`, and writes the
  alternate-function code for alternate functions;
- `resistor` writes the resistor's value into the 2-bit pull field at
  `2 * pin`;
- `open_drain` writes bit `pin` of the output-type word.

The alternate-function code is placed in the hardware's layout: a 4-bit
field at bit `4 * (pin % 8)`, in `alt_function_low` for pins 0-7 and in
`alt_function_high` for pins 8-15 (`PinMux.AfSlotOf`). The field the driver
computes, at bit `2 * pin` and absent for pin 8, is kept as
`PinMux.AfSlotAsWritten` and compared with that layout under "Findings".
Likewise, `GpioReg.GetReg` gives `gpio_h` the table's last entry, where
the driver's lookup reads past the table.

`resistor` stores the numeric value of the `hal::pin_resistor` enumerator,
which is defined outside this repository. It does not store a fixed
00/01/10 code. The model therefore takes these values as a
`ResistorEncoding` parameter. `DOCUMENTED_PULL_CODES` holds the codes that
the register comment of `src/gpio_reg.hpp:34` documents.

## Model

| member | source | states |
|---|---|---|
| Bits.WordRoundTrip | src/spi_reg.hpp:25 | a 32-bit register word and its unsigned value convert into each other without loss |
| Bits.ExtractInsert | src/spi.cpp:194-195 | reading a field back after `insert` returns the inserted value when it fits the field |
| Bits.ExtractInsertOther | src/spi.cpp:194-202 | inserting into one field leaves every disjoint field's value unchanged |
| Bits.InsertExtract | src/pin.cpp:33-39 | writing a field's own value back leaves the word unchanged |
| Bits.InsertInsert | src/spi.cpp:176-212 | of two inserts into the same field, the last one wins |
| Bits.SetIsInsertOnes | src/spi.cpp:199-201 | `set` of a field is `insert` of the all-ones value |
| Bits.ClearIsInsertZero | src/spi.cpp:202 | `clear` of a field is `insert` of zero |
| Bits.ExtractSingle | src/power.cpp:65 | `bit_extract` of a one-bit field is 1 exactly when that bit is set |
| Bits.AscendingDisjoint | src/spi_reg.hpp:49-100 | masks listed in ascending, non-overlapping order are pairwise disjoint |
| Layout.CommentedOffsetsHold | src/rcc_reg.hpp:21-89 | when the comments describe a packed struct, each member's real offset, the sum of the sizes before it, is its commented offset |
| Layout.GrownMemberShifts | src/gpio_reg.hpp:31 | widening one member by `extra` bytes moves every later member by `extra` and no earlier one |
| Constants.Bus.Base | include/libhal-stm32f4/constants.hpp:21-36 | each bus constant is a multiple of `bus_id_offset` (32), and dividing by 32 gives the bus index 0..5 |
| Constants.Value | include/libhal-stm32f4/constants.hpp:38-81 | every peripheral id is below `beyond + 32` |
| Constants.ValueSplits | include/libhal-stm32f4/constants.hpp:41-80 | `id / 32` is the index of the bus the peripheral is listed under, and `id % 32` is its offset from that bus's base |
| Constants.FromValueOfValue | include/libhal-stm32f4/constants.hpp:38-81 | decoding a peripheral's id gives back that peripheral |
| Constants.ValueInjective | include/libhal-stm32f4/constants.hpp:39-81 | distinct peripherals have distinct ids |
| Constants.NoPeripheralOnAhb3 | include/libhal-stm32f4/constants.hpp:41-80 | no peripheral id lies on bus 2 (AHB3) |
| Constants.GpioIds | include/libhal-stm32f4/constants.hpp:41-46 | GPIO A to E have ids 0 to 4, and GPIO H has id 7 |
| Constants.CoreIdsBeyondBuses | include/libhal-stm32f4/constants.hpp:79-80 | `cpu` and `system_timer` are on bus 5, past every enable register |
| Irqs.Number | include/libhal-stm32f4/constants.hpp:84-211 | every interrupt number fits the enum's 16-bit type |
| Irqs.Tim1AliasesShareNumbers | include/libhal-stm32f4/constants.hpp:127-137 | the TIM1 aliases share numbers 24, 25 and 26 |
| Irqs.ExtiAliasesShareNumbers | include/libhal-stm32f4/constants.hpp:165-171 | `exti17`/`rtcalarm` are both 41, and `exti18`/`otg_fs_wkup` are both 42 |
| Irqs.MaxIsAboveAll | include/libhal-stm32f4/constants.hpp:210 | `max` is 86, above every other interrupt number |
| RccReg.RccOffsetsMatchComments | src/rcc_reg.hpp:21-89 | every offset computed from the declared sizes equals the offset its comment documents |
| RccReg.RccLayoutEnd | src/rcc_reg.hpp:87-89 | `dckcfgr` is at 0x8C, and the block is 0x90 bytes |
| RccReg.ReservedGaps | src/rcc_reg.hpp:36-85 | every reserved gap is two words except `reserved7`, which is one |
| RccReg.RccAddress | src/rcc_reg.hpp:95-96 | the RCC base is 0x40000000 + 0x20000 + 0x3800 = 0x40023800 |
| RccReg.EnableRegister.Offset | src/rcc_reg.hpp:45-55 | each enable register's offset is the computed offset of the member with that name |
| RccReg.EnableRegisterOffsets | src/rcc_reg.hpp:45-55 | the four enable words sit at 0x30, 0x34, 0x40 and 0x44, and no two of them overlap |
| RccReg.EnableState.With | src/power.cpp:58 | a store to one enable word changes that word only |
| RccReg.Rcc.Write | src/power.cpp:58 | a store to one enable word of the RCC block changes that word only |
| PowerGate.Enable | src/power.cpp:25-43 | bus indices 0 to 4 select an enable word (2 and 3 both select APB1's); 5 and above select none |
| PowerGate.GateOf | src/power.cpp:46-53 | the switch is `Enable(id / 32)` and bit `id % 32`, which is below 32; only ids on or past `beyond` are ungated |
| PowerGate.GateMatchesListedBus | src/power.cpp:48-52 | every peripheral is switched by the enable word of the bus it is listed under, at its offset from that bus |
| PowerGate.Ahb3FallsThroughToApb1 | src/power.cpp:32-35 | bus index 2 falls through to `apb1enr`, and no peripheral id reaches it |
| PowerGate.DistinctGates | src/power.cpp:46-53 | distinct peripherals have distinct switches |
| PowerGate.SwitchTakesEffect | src/power.cpp:55-75 | for a gated id, `is_on` is true after `on` and false after `off` |
| PowerGate.UngatedAlwaysOn | src/power.cpp:57-67 | for an ungated id, `on` and `off` change nothing, and `is_on` is true |
| PowerGate.SwitchChangesOneBit | src/power.cpp:55-75 | `on`/`off` change only the selected bit of the selected enable word |
| PowerGate.SwitchIdempotent | src/power.cpp:55-75 | switching twice the same way equals switching once |
| PowerGate.SwitchLeavesOthers | src/power.cpp:55-75 | switching one peripheral leaves `is_on` of every other peripheral unchanged |
| PowerGate.Power.constructor | src/power.cpp:46-53 | the power object holds the switch `GateOf` computes for the id |
| PowerGate.Power.On | src/power.cpp:55-60 | the enable words become `Switch(old, gate, true)`, and the peripheral then reads as on |
| PowerGate.Power.Off | src/power.cpp:70-75 | the enable words become `Switch(old, gate, false)`, and the peripheral then reads as on only if it is ungated |
| PowerGate.Power.IsOn | src/power.cpp:62-68 | reads the enable bit, or true when there is no enable word |
| GpioReg.GpioOffsetsMatchComments | src/gpio_reg.hpp:26-50 | with a one-word `output_type`, every documented offset is the real one, and the block is 0x28 bytes |
| GpioReg.GpioDeclaredOffsetsShifted | src/gpio_reg.hpp:31 | as declared, every member after `output_type` sits 8 bytes past its comment, so `alt_function_low` is at 0x28 |
| GpioReg.SetResetShareAWord | src/gpio_reg.hpp:40-43 | `set` and `reset` are the low and high halves of the word at 0x018 |
| GpioReg.GpioRegsStride | src/gpio_reg.hpp:52-61 | ports A to E sit at a 0x400 stride from `ahb_base`, and the last entry (H) sits 7 strides up |
| GpioReg.GpioRegsApart | src/gpio_reg.hpp:54-61 | the table entries are at least 0x400 apart, more than one block's size |
| GpioReg.GetRegAsWritten | src/gpio_reg.hpp:63-65 | the raw-id lookup is in bounds only for GPIO ports A to E |
| GpioReg.GetRegAsWrittenMissesGpioH | src/gpio_reg.hpp:54-65 | `gpio_h` (id 7) is past the end of the six-entry table |
| GpioReg.PortSlot | src/gpio_reg.hpp:54-61 | exactly the GPIO ports have a table slot, and each slot is inside the table |
| GpioReg.GetReg | src/gpio_reg.hpp:63-65 | a GPIO port's block is at `ahb_base + id * 0x400`; other peripherals have no block |
| GpioReg.GetRegAgreesWhereDefined | src/gpio_reg.hpp:63-65 | wherever the raw-id lookup is in bounds, it agrees with `GetReg` |
| GpioReg.GetRegInjective | src/gpio_reg.hpp:54-65 | distinct ports have distinct block addresses |
| GpioReg.GpioBank.Block | src/gpio_reg.hpp:63-65 | the block object for a port is at the address `get_reg` gives |
| GpioReg.GpioBank.BlocksDistinct | src/gpio_reg.hpp:54-61 | distinct ports never share a block object |
| PinMux.Ordinal | include/libhal-stm32f4/pin.hpp:31-52 | `pin_function` ordinals run from 0 to 18, and the alternate functions are exactly those from 3 up |
| PinMux.OrdinalRoundTrip | include/libhal-stm32f4/pin.hpp:31-52 | ordinals and functions convert into each other both ways, for exactly the ordinals 0..18 |
| PinMux.AltCode | src/pin.cpp:40 | the code `ordinal - 3` of `alternateK` is K, which fits 4 bits |
| PinMux.ModeCode | src/pin.cpp:32-39 | the mode code written is 00 input, 01 output, 11 analog and 10 alternate, the codes the register comment documents |
| PinMux.PinFieldsDisjoint | src/pin.cpp:29-30 | each pin's mode, pull and output-type fields fit a word, and those of different pins are disjoint |
| PinMux.AfSlotOf | src/pin.cpp:41-47 | the AF code of pins 0-7 goes to `alt_function_low` and that of pins 8-15 to `alt_function_high`, in a 4-bit field that fits the word |
| PinMux.AfSlotsDisjoint | src/pin.cpp:41-47 | different pins never share AF bits |
| PinMux.AfSlotAsWritten | src/pin.cpp:41-47 | the driver's AF field sits at bit `2 * pin`, and pin 8 gets none |
| PinMux.AfSlotAsWrittenDiscrepancies | src/pin.cpp:41-47 | in the driver's choice, pin 8 gets no slot, pins 0 and 1 overlap, pin 9 misses bits 4-7, and pin 15 runs past bit 31 |
| PinMux.WithAfWord | src/pin.cpp:42-46 | the chosen AF register receives the new word; the other AF register and every other register keep their values |
| PinMux.FunctionSetsPinFields | src/pin.cpp:26-50 | `function(f)` gives the pin f's mode and, for an alternate function, its code; other pins' modes and codes, the AF words of non-alternate calls, and all other registers are unchanged |
| PinMux.WithResistor | src/pin.cpp:52-60 | the pin's pull field holds the resistor value's low two bits; other pins' pull fields and other registers are unchanged |
| PinMux.WithOpenDrain | src/pin.cpp:62-70 | bit `pin` of `output_type` becomes the flag; every other bit and register is unchanged |
| PinMux.DocumentedPullCodesReadBack | src/gpio_reg.hpp:34 | with the documented codes, each resistor mode reads back as its own, distinct code |
| PinMux.Pin.Function | src/pin.cpp:26-50 | the block becomes `WithFunction(old, pin, f)`, and the same descriptor is returned for chaining |
| PinMux.Pin.Resistor | src/pin.cpp:52-60 | the block becomes `WithResistor(old, pin, code)`, and the same descriptor is returned |
| PinMux.Pin.OpenDrain | src/pin.cpp:62-70 | the block becomes `WithOpenDrain(old, pin, enable)`, and the same descriptor is returned |
| PinMux.DefaultPin | include/libhal-stm32f4/pin.hpp:95-96 | the default descriptor is port value 0 (`gpio_a`), pin 0 |
| InputPins.InputConfiguration | src/input_pin.cpp:35-46 | after configuring, the pin is an input, push-pull, and its pull field holds the pull code; other pins' fields and other registers are unchanged |
| InputPins.InputPin.constructor | src/input_pin.cpp:26-33 | stores the port and pin, then leaves the block configured as `ConfiguredAsInput` |
| InputPins.InputPin.Configure | src/input_pin.cpp:35-46 | the block becomes `ConfiguredAsInput(old, pin, code)`; nothing else is modified, so no clock is powered |
| InputPins.InputPin.Level | src/input_pin.cpp:48-54 | the level is bit `pin` of `input_data`, read without any change |
| SpiReg.SpiOffsetsMatchComments | src/spi_reg.hpp:22-42 | the nine words are at their commented offsets 0x00-0x20, and the block is 0x24 bytes |
| SpiReg.Cr1FieldsDisjoint | src/spi_reg.hpp:49-100 | the baud field `from<5, 3>` is bits 3-5, and the CR1 masks are pairwise disjoint within bits 0-15 |
| SpiReg.Cr2FieldsDisjoint | src/spi_reg.hpp:107-127 | the CR2 masks are pairwise disjoint |
| SpiReg.SrFieldsDisjoint | src/spi_reg.hpp:134-160 | the SR masks are pairwise disjoint, with rx-not-empty at bit 0, tx-empty at bit 1 and busy at bit 7 |
| SpiReg.BaudDivisorRange | src/spi_reg.hpp:58-60 | baud values 0..7 select the divisors 2..256, each twice the one before |
| SpiReg.SpiRegsApart | src/spi_reg.hpp:163-170 | the five SPI blocks are at least one block size (0x24) apart |
| SpiReg.SpiRegionMatchesBus | src/spi_reg.hpp:163-170 | each SPI block lies in the APB region of the bus its power id names |
| SpiBaud.ClampPrescaler | src/spi.cpp:183-188 | prescalers of 0 and 1 become 2, those above 256 fail, and the others pass unchanged |
| SpiBaud.CountlZero | src/spi.cpp:190 | the number of zero bits above the highest set bit of a `width`-bit value |
| SpiBaud.SingleBitIsPower | src/spi.cpp:191 | between 2^k and 2^(k+1), exactly 2^k has a single bit |
| SpiBaud.HalfCeilingExponent | src/spi.cpp:190-193 | the computed exponent e satisfies 2^e < x <= 2^(e+1) |
| SpiBaud.BaudControl | src/spi.cpp:190-193 | the baud value is below 8, and its divisor is the least power of two that is at least the prescaler |
| SpiBaud.TopBitOfPrescaler | src/spi.cpp:190-191 | a prescaler's top bit `15 - countl_zero` is between 1 and 8, and the prescaler has a single bit exactly when it is that power of two |
| SpiBaud.BaudControlFormula | src/spi.cpp:190-193 | `BaudControl` equals `15 - countl_zero(p)`, minus one when `p` has a single bit |
| SpiBaud.BaudControlIsSmallest | src/spi.cpp:190-193 | no smaller baud value gives a divisor that reaches the prescaler |
| SpiBaud.BaudControlExactOnPowers | src/spi.cpp:190-193 | on a power of two, the divisor equals the prescaler |
| SpiBaud.SixteenOverFourMegahertz | src/spi.cpp:181-193 | 16 MHz over 4 MHz gives prescaler 4, baud 1 and divisor 4 |
| Spi.GetSpiReg | src/spi.cpp:31-48 | SPI1..5 map to `spi_reg1..5`, and every other peripheral fails with `operation_not_supported` |
| Spi.GetSpiRegInjective | src/spi.cpp:31-48 | distinct SPI peripherals have distinct register blocks |
| Spi.BusTable | src/spi.cpp:67-160 | exactly the bus numbers 1..5 have an entry; bus n drives SPIn with an alternate function; others fail |
| Spi.BusTablePins | src/spi.cpp:68-157 | every bus routes three distinct valid pins on GPIO A or B, and its peripheral has a register block |
| Spi.Spi3AndSpi5ShareTheirPins | src/spi.cpp:104-157 | buses 3 and 5 route the same pins PB3, PB5 and PB4, with AF7 and AF6 |
| Spi.Spi4DataInIsPinEight | src/spi.cpp:126 | SPI4's data-in pin is PB8, the pin whose AF code the driver as written never stores |
| Spi.BusTableRoutable | src/spi.cpp:68-157 | every table entry has three valid pins on ports A and B |
| Spi.Flag | src/spi.cpp:196-198 | a flag is inserted as 1 when true and 0 when false |
| Spi.ConfiguredCr1Baud | src/spi.cpp:194-195 | after configuring, the baud field holds the computed baud value |
| Spi.ConfiguredCr1KeepsOtherBits | src/spi.cpp:176-212 | configuring leaves every CR1 bit outside the written fields unchanged |
| Spi.ConfiguredCr1Fields | src/spi.cpp:176-212 | CR1 ends with MSTR, SPE, SSM and BIDIOE set; SSI and LSBFIRST clear; BR the baud value; CPHA and CPOL from the settings; all other bits unchanged |
| Spi.ConfiguredCr2Fields | src/spi.cpp:204-206 | CR2 ends with SSOE set and FRF clear, with all other bits unchanged |
| Spi.ConfiguredDivisor | src/spi.cpp:181-195 | the configured divisor is at least the clamped prescaler and below twice it |
| Spi.RoutedFields | src/spi.cpp:75-77 | the chain `function(f).open_drain(false).resistor(none)` sets that pin's mode, code, output type and pull, and keeps every other pin's fields and the other registers |
| Spi.RouteStepFields | src/spi.cpp:75-83 | routing one pin of the bus changes only that pin's fields on its own port |
| Spi.FoldThree | src/spi.cpp:75-83 | applying a routing step to three pins is the three steps in order |
| Spi.RouteBusPortSteps | src/spi.cpp:71-83 | routing a bus's pins on one port is the clock, data-in and data-out steps in that order |
| Spi.RouteChainFields | src/spi.cpp:71-83 | after the three steps, a pin of the bus is routed, and any other pin is unchanged |
| Spi.ThreeSteps | src/spi.cpp:75-83 | three steps that each route one listed pin leave a pin routed exactly when it is one of them |
| Spi.RouteBusPortFields | src/spi.cpp:68-157 | after the constructor's routing, each of the bus's pins on a port has the bus's AF, push-pull and no pull, and every other pin keeps its fields |
| Spi.RouteStepKeepsOtherRegisters | src/spi.cpp:75-77 | routing a pin changes only the mode, output-type, pull and AF words |
| Spi.RouteBusPortKeepsOtherRegisters | src/spi.cpp:68-157 | routing a bus changes only the mode, output-type, pull and AF words of each port |
| Spi.Max | src/spi.cpp:220 | the maximum is at least both lengths and is one of them |
| Spi.TransmittedShape | src/spi.cpp:220-239 | a transfer sends exactly `max(|out|, |in|)` bytes: the whole output first, then only filler |
| Spi.ComputeBaud | src/spi.cpp:190-193 | the driver's `15 - countl_zero`, decremented for a single bit, is `BaudControl` |
| Spi.Route | src/spi.cpp:75-77 | one pin's port block becomes `Routed(old, pin, f, none)` |
| Spi.RouteBus | src/spi.cpp:71-83 | the GPIO A and B blocks become `RouteBusPort` of their old states |
| Spi.SpiBank.Block | src/spi.cpp:31-48 | the block object for an SPI peripheral is at the address `get_spi_reg` gives |
| Spi.SpiDriver.constructor | src/spi.cpp:69-70 | the driver stores its peripheral id and register block |
| Spi.SpiDriver.Configure | src/spi.cpp:171-213 | fails exactly for prescalers above 256, after setting only MSTR; otherwise returns `BaudControl` of the clamped prescaler, CR1 becomes `ConfiguredCr1` and CR2 `ConfiguredCr2` |
| Spi.SpiDriver.Transfer | src/spi.cpp:215-251 | the bytes sent are `Transmitted(out, |in|, filler)`; every element of `in` is the low byte of its reply; CR1 ends with SSI clear, and CR2 is unchanged |
| Spi.SpiDriver.Close | src/spi.cpp:166-169 | the enable words become `Switch(old, gate, false)`: the peripheral is powered off |
| Spi.SpiDriver.Start | src/spi.cpp:162-163 | powers the peripheral on, then configures it; it succeeds exactly when the prescaler is at most 256 |
| Spi.SpiDriver.Open | src/spi.cpp:68-163 | routes the bus's pins, powers the peripheral on and configures it |
| Spi.SpiDriver.Create | src/spi.cpp:64-164 | an unknown bus number fails before any pin, power or SPI write; a known one routes its pins, powers its peripheral on, and configures the SPI block `get_spi_reg` gives (CR1 and CR2 as in `Configure`, or only MSTR set on failure); the driver holds that block, every other SPI block is unchanged, and it succeeds exactly when the prescaler is at most 256 |

## Left out

- The floating-point frequency division (`16.0_MHz / clock_rate`) and the
  truncating `static_cast<std::uint16_t>` are not modelled (src/spi.cpp:181-183).
  `Spi.Settings.divider` is the already truncated 16-bit prescaler. The
  truncation can leave the divisor below the real ratio, so the bus can run
  faster than requested; this is not modelled.
- The busy-wait loops on the status register (src/spi.cpp:222-224, 235-237,
  241-243) are not modelled. Each wait is taken to end. The successive
  data-register reads are a `replies` parameter of `Spi.SpiDriver.Transfer`.
- The `busy`, `tx_empty` and `rx_not_empty` helpers (src/spi.cpp:50-61) are
  not modelled as functions, because only the waits use them. Their bit
  positions are stated by `SpiReg.SrFieldsDisjoint`.
- Spi.SpiDriver.Transfer: the block models only CR1 and CR2. The data-register
  writes are returned as the `sent` sequence, not stored in a `dr` field.
- Spi.LowByte reads a reply as its value modulo 256, which is what
  `static_cast<uint8_t>` does.
- `volatile`, `reinterpret_cast` and memory-mapped I/O are not modelled.
  Addresses are integers, and register blocks are objects that the
  bank classes hold at those addresses. Concurrent access and hardware-side
  changes to registers (for example the mode-fault reaction of the SPI
  block) are not modelled.
- The libhal externals are not part of this model: `bit_modify`,
  `bit_extract`, `safe_throw`, `hertz` and the numeric values of
  `hal::pin_resistor`. The bit-field operations are defined in `Bits`, and
  `safe_throw(operation_not_supported)` is an `Err` result. The resistor
  values are the `ResistorEncoding` parameter.
- GpioReg.GetReg, GpioReg.GpioBank.Block, PinMux.FunctionSetsPinFields,
  PinMux.Pin.Function, Spi.RoutedFields and Spi.RouteBusPortFields follow the
  corrected behaviour of the Findings rows for src/gpio_reg.hpp:63-65 and
  src/pin.cpp:41-47, not the code as written. As written, `gpio_h` has no
  block, and the alternate-function code goes to bit `2 * pin`. Pin 8 gets no
  code at all, so SPI4's PB8 is left without one. SPI2's PB10, PB14 and PB15
  codes land at bits 20, 28 and 30, and the PB15 field runs past bit 31.
  The as-written behaviour is stated only by `GpioReg.GetRegAsWritten`,
  `PinMux.AfSlotAsWritten` and `PinMux.AfSlotAsWrittenDiscrepancies`.
- Pin indices are limited to 0..15 (`PinMux.Pin.Valid`). For larger indices,
  the source's fields at bit `2 * pin` lie outside the 32-bit word.
- Neither the SPI constructor nor the input pin powers the GPIO port clocks,
  and the model does not either.
- `src/output_pin.cpp` and `include/libhal-stm32f4/output_pin.hpp` are not
  modelled, because every member there is an unimplemented stub.
- `include/libhal-stm32f4/spi.hpp` and `include/libhal-stm32f4/input_pin.hpp`
  are declarations only and are not modelled. Their `hal::runtime` constructor
  signature and the `bus_info` struct in spi.hpp do not match the definitions
  in src/spi.cpp and are not used.
- The demo applications and the package build script are not part of this
  model.
- Irqs.Number: the model states that every interrupt number fits 16 bits and
  which aliases share numbers. It does not state that the other numbers are
  pairwise distinct.
- `error_t` (include/libhal-stm32f4/constants.hpp:213-217) is not used by the
  core and is not modelled.

## Findings

| source | as written | input that shows it | evidently intended | confidence | as-written member | corrected member |
|---|---|---|---|---|---|---|
| src/gpio_reg.hpp:63-65 | `get_reg` indexes the six-entry `gpio_regs` table with the raw peripheral id | `gpio_h`, whose id is 7 | `gpio_h` uses the table's last entry, `ahb_base + 0x1C00` | not executed | GpioReg.GetRegAsWrittenMissesGpioH | GpioReg.GetRegAgreesWhereDefined |
| src/pin.cpp:41-47 | the AF code goes into bits `2 * pin` to `2 * pin + 3`, and no AF register is written for pin 8 | pin 8, which SPI4 routes as PB8 (src/spi.cpp:126); pins 0 and 1 overlap at bits 2-3 | a 4-bit field at bit `4 * (pin % 8)`, in `alt_function_low` for pins 0-7 and in `alt_function_high` for pins 8-15 | not executed | PinMux.AfSlotAsWrittenDiscrepancies | PinMux.AfSlotsDisjoint |
| src/gpio_reg.hpp:31 | `output_type` is declared as an array of three words | `alt_function_low` lands at offset 0x28, not its documented 0x20 | a single `output_type` word, which puts every member at its documented offset | not executed | GpioReg.GpioDeclaredOffsetsShifted | GpioReg.GpioOffsetsMatchComments |
