/**
 * The SPI clock prescaler: the integer ratio of the input clock to the
 * requested rate is clamped to 2..256 and encoded as the 3-bit baud field
 * value `n` whose divisor 2^(n+1) is the smallest power of two not below it.
 */
module SpiBaud {
  import opened Bits
  import opened Results
  import opened SpiReg

  /** An unsigned 16-bit value. */
  type U16 = n: nat | n < 0x1_0000

  /** Prescalers of 0 or 1 become 2; above 256 the request is refused. */
  function ClampPrescaler(prescaler: U16): (r: Result<nat>)
    ensures r.Err? <==> prescaler > 256
    ensures prescaler <= 1 ==> r == Ok(2)
    ensures r.Ok? ==> 2 <= r.value <= 256
    ensures r.Ok? && prescaler >= 2 ==> r.value == prescaler
  {
    if prescaler <= 1 then Ok(2)
    else if prescaler > 256 then Err(OperationNotSupported)
    else Ok(prescaler)
  }

  /** `std::countl_zero` on a `width`-bit value: the zero bits above its highest set bit. */
  function CountlZero(x: nat, width: nat): (n: nat)
    requires x < Pow2(width)
    ensures n <= width
    ensures x == 0 ==> n == width
    ensures x > 0 ==> n < width && Pow2(width - n - 1) <= x < Pow2(width - n)
    decreases width
  {
    if width == 0 then 0
    else if x >= Pow2(width - 1) then 0
    else 1 + CountlZero(x, width - 1)
  }

  /** The number of set bits. */
  function PopCount(x: nat): nat {
    if x == 0 then 0 else x % 2 + PopCount(x / 2)
  }

  /** `std::has_single_bit`: exactly one bit is set. */
  predicate HasSingleBit(x: nat) {
    PopCount(x) == 1
  }

  lemma {:induction false} PopCountPositive(x: nat)
    requires x > 0
    ensures PopCount(x) >= 1
  {
    if x % 2 == 0 {
      PopCountPositive(x / 2);
    }
  }

  /** Every power of two has a single bit. */
  lemma {:induction false} PowerHasSingleBit(k: nat)
    ensures HasSingleBit(Pow2(k))
  {
    if k > 0 {
      PowerHasSingleBit(k - 1);
      assert Pow2(k) / 2 == Pow2(k - 1);
    }
  }

  /** No number strictly between two consecutive powers of two has a single bit. */
  lemma {:induction false} BetweenPowersNotSingle(x: nat, k: nat)
    requires Pow2(k) < x < Pow2(k + 1)
    ensures !HasSingleBit(x)
  {
    if k > 0 {
      if x % 2 == 1 {
        Pow2Monotone(0, k - 1);
        PopCountPositive(x / 2);
      } else {
        BetweenPowersNotSingle(x / 2, k - 1);
      }
    }
  }

  /** A number with a single bit, between 2^k and 2^(k+1), is 2^k. */
  lemma SingleBitIsPower(x: nat, k: nat)
    requires Pow2(k) <= x < Pow2(k + 1)
    ensures HasSingleBit(x) <==> x == Pow2(k)
  {
    if x == Pow2(k) {
      PowerHasSingleBit(k);
    } else {
      BetweenPowersNotSingle(x, k);
    }
  }

  /**
   * `width - 1 - countl_zero(x)`, one less when `x` has a single bit: the
   * exponent `e` with 2^e < x <= 2^(e+1).
   */
  function HalfCeilingExponent(x: nat, width: nat): (e: nat)
    requires 2 <= x < Pow2(width)
    ensures Pow2(e) < x <= Pow2(e + 1)
  {
    var zeros := CountlZero(x, width);
    var top := width - 1 - zeros;
    SingleBitIsPower(x, top);
    if HasSingleBit(x) then
      TopAboveZero(x, top);
      top - 1
    else
      top
  }

  lemma TopAboveZero(x: nat, top: nat)
    requires 2 <= x == Pow2(top)
    ensures 1 <= top
  {
  }

  /**
   * The baud field value: `15 - countl_zero(p)`, one less when `p` is a power
   * of two. Its divisor is the smallest power of two that is at least `p`.
   */
  function BaudControl(prescaler: nat): (baud: nat)
    requires 2 <= prescaler <= 256
    ensures baud < 8
    ensures Pow2(baud) < prescaler <= BaudDivisor(baud)
  {
    SixteenBitsHoldPrescaler(prescaler);
    var baud := HalfCeilingExponent(prescaler, 16);
    ExponentBelowEight(prescaler, baud);
    baud
  }

  lemma ExponentBelowEight(x: nat, e: nat)
    requires Pow2(e) < x <= 256
    ensures e < 8
  {
    EightBitsTop();
  }

  /** Only one exponent puts 2^k in the half-open range (2^e, 2^(e+1)]. */
  lemma ExponentOfPower(e: nat, k: nat)
    requires Pow2(e) < Pow2(k) <= Pow2(e + 1)
    ensures e + 1 == k
  {
    if k <= e {
      Pow2Monotone(k, e);
    } else if e + 1 < k {
      Pow2Monotone(e + 2, k);
    }
  }

  lemma SixteenBitsHoldPrescaler(prescaler: nat)
    requires prescaler <= 256
    ensures prescaler < Pow2(16)
  {
    assert Pow2(8) == 256;
    Pow2Monotone(9, 16);
  }

  lemma EightBitsTop()
    ensures Pow2(8) == 256
  {
  }

  /**
   * The highest set bit of `x`, bit `width - 1 - countl_zero`, lies between
   * `low` and `high` when `x` does between 2^low and 2^high.
   */
  lemma TopBitBetween(x: nat, width: nat, low: nat, high: nat)
    requires 0 < x < Pow2(width)
    requires Pow2(low) <= x <= Pow2(high)
    ensures low <= width - 1 - CountlZero(x, width) <= high
    ensures width - 1 - CountlZero(x, width) == high ==> x == Pow2(high)
  {
    var top := width - 1 - CountlZero(x, width);
    if top < low {
      Pow2Monotone(top + 1, low);
    }
    if top > high {
      Pow2Monotone(high + 1, top);
    }
  }

  /**
   * The highest set bit of a prescaler in 2..256 is bit `15 - countl_zero`,
   * between 1 and 8, and the prescaler has a single bit exactly when it is
   * that power of two.
   */
  lemma TopBitOfPrescaler(prescaler: nat)
    requires 2 <= prescaler <= 256
    ensures prescaler < Pow2(16)
    ensures var top := 15 - CountlZero(prescaler, 16);
      && 1 <= top <= 8
      && Pow2(top) <= prescaler < Pow2(top + 1)
      && (HasSingleBit(prescaler) <==> prescaler == Pow2(top))
      && (top == 8 ==> HasSingleBit(prescaler))
  {
    SixteenBitsHoldPrescaler(prescaler);
    EightBitsTop();
    assert Pow2(1) == 2;
    TopBitBetween(prescaler, 16, 1, 8);
    SingleBitIsPower(prescaler, 15 - CountlZero(prescaler, 16));
  }

  /**
   * The baud value is the driver's formula: `15 - countl_zero(p)`, one less
   * when `p` has a single bit.
   */
  lemma BaudControlFormula(prescaler: nat)
    requires 2 <= prescaler <= 256
    ensures prescaler < Pow2(16)
    ensures CountlZero(prescaler, 16) <= 14
    ensures BaudControl(prescaler)
         == if HasSingleBit(prescaler) then 15 - CountlZero(prescaler, 16) - 1 else 15 - CountlZero(prescaler, 16)
  {
    TopBitOfPrescaler(prescaler);
  }

  /** No smaller baud value gives a divisor that reaches the prescaler. */
  lemma BaudControlIsSmallest(prescaler: nat, e: nat)
    requires 2 <= prescaler <= 256 && prescaler <= BaudDivisor(e)
    ensures BaudControl(prescaler) <= e
  {
    var baud := BaudControl(prescaler);
    if e < baud {
      Pow2Monotone(e + 1, baud);
    }
  }

  /** On a power of two the divisor is exactly the prescaler. */
  lemma BaudControlExactOnPowers(k: nat)
    requires 1 <= k <= 8
    ensures 2 <= Pow2(k) <= 256
    ensures BaudControl(Pow2(k)) == k - 1
    ensures BaudDivisor(BaudControl(Pow2(k))) == Pow2(k)
  {
    Pow2Monotone(1, k);
    Pow2Monotone(k, 8);
    EightBitsTop();
    ExponentOfPower(BaudControl(Pow2(k)), k);
  }

  /** A 16 MHz input clock and a 4 MHz request give prescaler 4, baud 1, divisor 4. */
  lemma SixteenOverFourMegahertz()
    ensures ClampPrescaler(16_000_000 / 4_000_000) == Ok(4)
    ensures BaudControl(4) == 1 && BaudDivisor(1) == 4
  {
    BaudControlExactOnPowers(2);
  }
}
