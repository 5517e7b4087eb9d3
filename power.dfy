/**
 * Peripheral power gating. A peripheral's id names a bus (`id / 32`) and a
 * bit (`id % 32`); the bus selects one RCC clock-enable word, or none for
 * parts that cannot be gated, and powering on or off sets or clears that bit.
 */
module PowerGate {
  import opened Bits
  import opened Results
  import opened Constants
  import opened RccReg

  /** The enable word for a bus index; AHB3 (index 2) shares APB1's word. */
  function Enable(busIndex: nat): (r: Option<EnableRegister>)
    ensures r.Some? <==> busIndex < 5
  {
    match busIndex
    case 0 => Some(Ahb1Enr)
    case 1 => Some(Ahb2Enr)
    case 2 => Some(Apb1Enr)
    case 3 => Some(Apb1Enr)
    case 4 => Some(Apb2Enr)
    case _ => None
  }

  /** The enable word of each bus, as the bus names say. */
  function BusEnableRegister(b: Bus): Option<EnableRegister> {
    match b
    case Ahb1 => Some(Ahb1Enr)
    case Ahb2 => Some(Ahb2Enr)
    case Ahb3 => None
    case Apb1 => Some(Apb1Enr)
    case Apb2 => Some(Apb2Enr)
    case Beyond => None
  }

  /** Where a peripheral's power switch is: an enable word (if any) and a bit in it. */
  datatype Gate = Gate(register: Option<EnableRegister>, bit: nat)

  /** The gate `power::power` computes for a peripheral. */
  function GateOf(p: Peripheral): (g: Gate)
    ensures g.bit < WORD_BITS
    ensures g.register.None? <==> Value(p) >= BEYOND
  {
    var value := Value(p);
    Gate(Enable(value / BUS_ID_OFFSET), value % BUS_ID_OFFSET)
  }

  /** Every peripheral is gated by the enable word of the bus it is listed under. */
  lemma GateMatchesListedBus(p: Peripheral)
    ensures GateOf(p).register == BusEnableRegister(ListedBus(p))
    ensures GateOf(p).bit == Value(p) - ListedBus(p).Base()
  {
    ValueSplits(p);
  }

  /** Bus index 2 falls through to APB1's word; no declared peripheral reaches it. */
  lemma Ahb3FallsThroughToApb1()
    ensures Enable(AHB3_BUS / BUS_ID_OFFSET) == Some(Apb1Enr)
    ensures forall p :: Value(p) / BUS_ID_OFFSET != AHB3_BUS / BUS_ID_OFFSET
  {
    forall p ensures Value(p) / BUS_ID_OFFSET != AHB3_BUS / BUS_ID_OFFSET {
      NoPeripheralOnAhb3(p);
    }
  }

  /**
   * Apart from the AHB3 fall-through, an id below the end of the `beyond`
   * bus is determined by its enable word and its bit.
   */
  lemma SameSwitchSameId(a: nat, b: nat)
    requires a < BEYOND + BUS_ID_OFFSET && b < BEYOND + BUS_ID_OFFSET
    requires a / BUS_ID_OFFSET != 2 && b / BUS_ID_OFFSET != 2
    requires Enable(a / BUS_ID_OFFSET) == Enable(b / BUS_ID_OFFSET)
    requires a % BUS_ID_OFFSET == b % BUS_ID_OFFSET
    ensures a == b
  {
    var i, j := a / BUS_ID_OFFSET, b / BUS_ID_OFFSET;
    assert i < 6 && j < 6;
    assert i == j;
  }

  /** Distinct peripherals have distinct switches. */
  lemma DistinctGates(p: Peripheral, q: Peripheral)
    requires p != q
    ensures GateOf(p) != GateOf(q)
  {
    ValueInjective(p, q);
    NoPeripheralOnAhb3(p);
    NoPeripheralOnAhb3(q);
    if GateOf(p) == GateOf(q) {
      SameSwitchSameId(Value(p), Value(q));
    }
  }

  /** What `is_on` reports: an ungated part is always on. */
  predicate Powered(s: EnableState, g: Gate)
    requires g.bit < WORD_BITS
  {
    g.register.None? || s.Get(g.register.value)[g.bit]
  }

  /** The enable words after `on()` (`turnOn`) or `off()`. */
  function Switch(s: EnableState, g: Gate, turnOn: bool): EnableState
    requires g.bit < WORD_BITS
  {
    match g.register
    case None => s
    case Some(r) =>
      var w := s.Get(r);
      s.With(r, if turnOn then Set(Single(g.bit), w) else Clear(Single(g.bit), w))
  }

  /** `on()` powers a gated peripheral; `off()` unpowers it. */
  lemma SwitchTakesEffect(s: EnableState, g: Gate, turnOn: bool)
    requires g.bit < WORD_BITS && g.register.Some?
    ensures Powered(Switch(s, g, turnOn), g) == turnOn
  {
  }

  /** For an ungated part, `on()` and `off()` change nothing and it reads as on. */
  lemma UngatedAlwaysOn(s: EnableState, g: Gate, turnOn: bool)
    requires g.bit < WORD_BITS && g.register.None?
    ensures Switch(s, g, turnOn) == s
    ensures Powered(s, g)
  {
  }

  /** Only the selected bit of the selected word changes. */
  lemma SwitchChangesOneBit(s: EnableState, g: Gate, turnOn: bool, r: EnableRegister, i: nat)
    requires g.bit < WORD_BITS && i < WORD_BITS
    requires g.register != Some(r) || i != g.bit
    ensures Switch(s, g, turnOn).Get(r)[i] == s.Get(r)[i]
  {
  }

  /** Switching twice the same way is the same as switching once. */
  lemma SwitchIdempotent(s: EnableState, g: Gate, turnOn: bool)
    requires g.bit < WORD_BITS
    ensures Switch(Switch(s, g, turnOn), g, turnOn) == Switch(s, g, turnOn)
  {
  }

  /** Switching one peripheral does not change whether another one is on. */
  lemma SwitchLeavesOthers(s: EnableState, p: Peripheral, q: Peripheral, turnOn: bool)
    requires p != q
    ensures Powered(Switch(s, GateOf(p), turnOn), GateOf(q)) == Powered(s, GateOf(q))
  {
    DistinctGates(p, q);
    var g := GateOf(q);
    if g.register.Some? {
      SwitchChangesOneBit(s, GateOf(p), turnOn, g.register.value, g.bit);
    }
  }

  /** The power switch of one peripheral, acting on the RCC enable words. */
  class Power {
    const gate: Gate
    const rcc: Rcc

    constructor(p: Peripheral, rcc: Rcc)
      ensures gate == GateOf(p) && this.rcc == rcc
    {
      gate := GateOf(p);
      this.rcc := rcc;
    }

    predicate Valid() {
      gate.bit < WORD_BITS
    }

    method On()
      requires Valid()
      modifies rcc
      ensures rcc.State() == Switch(old(rcc.State()), gate, true)
      ensures IsOn()
    {
      if gate.register.Some? {
        var r := gate.register.value;
        rcc.Write(r, Set(Single(gate.bit), rcc.State().Get(r)));
      }
    }

    method Off()
      requires Valid()
      modifies rcc
      ensures rcc.State() == Switch(old(rcc.State()), gate, false)
      ensures IsOn() <==> gate.register.None?
    {
      if gate.register.Some? {
        var r := gate.register.value;
        rcc.Write(r, Clear(Single(gate.bit), rcc.State().Get(r)));
      }
    }

    /** Reads the enable bit; a part with no enable word reads as on. */
    function IsOn(): (b: bool)
      requires Valid()
      reads rcc
      ensures b == Powered(rcc.State(), gate)
    {
      match gate.register
      case None => true
      case Some(r) =>
        ExtractSingle(gate.bit, rcc.State().Get(r));
        Extract(Single(gate.bit), rcc.State().Get(r)) == 1
    }
  }
}
