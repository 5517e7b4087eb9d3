/**
 * 32-bit register words and the bit fields inside them.
 *
 * A register word is modelled as its 32 bits, least significant first:
 * `w[i]` is bit i of the word. `ToNat`/`FromNat` show that this is exactly
 * the unsigned 32-bit value the hardware holds. A bit field is a
 * `(position, width)` pair, as in the bit_mask record the drivers use, and
 * `Insert`/`Extract` are the read-modify-write and the read of such a field.
 */
module Bits {

  const WORD_BITS: nat := 32

  function Pow2(n: nat): (r: nat)
    ensures r >= 1
  {
    if n == 0 then 1 else 2 * Pow2(n - 1)
  }

  /** Powers of two grow with the exponent. */
  lemma {:induction false} Pow2Monotone(a: nat, b: nat)
    requires a <= b
    ensures Pow2(a) <= Pow2(b)
  {
    if a < b {
      Pow2Monotone(a, b - 1);
    }
  }

  /** One register word: bit i is `w[i]`. */
  type Word = w: seq<bool> | |w| == WORD_BITS witness seq(32, i => false)

  /** A bit field of a register: `width` bits starting at bit `position`. */
  datatype BitMask = BitMask(position: nat, width: nat) {

    /** The field lies inside one 32-bit word and is not empty. */
    predicate Fits() {
      1 <= width && position + width <= WORD_BITS
    }

    predicate Covers(i: nat) {
      position <= i < position + width
    }

    predicate DisjointFrom(other: BitMask) {
      position + width <= other.position || other.position + other.width <= position
    }
  }

  /** A single-bit field, `bit_mask::from<p>()`. */
  function Single(p: nat): (m: BitMask)
    ensures m.Covers(p) && m.width == 1
  {
    BitMask(p, 1)
  }

  /** The field between two bit positions, both included, `bit_mask::from<a, b>()`. */
  function Span(a: nat, b: nat): (m: BitMask)
    ensures m.Covers(a) && m.Covers(b)
    ensures forall i: nat :: m.Covers(i) <==> (a <= i <= b || b <= i <= a)
  {
    if a <= b then BitMask(a, b - a + 1) else BitMask(b, a - b + 1)
  }

  /** The low `n` bits of `v`, least significant first. */
  function ToBits(v: nat, n: nat): (b: seq<bool>)
    ensures |b| == n
  {
    if n == 0 then [] else [v % 2 == 1] + ToBits(v / 2, n - 1)
  }

  /** The unsigned number whose bits, least significant first, are `b`. */
  function FromBits(b: seq<bool>): (v: nat)
    ensures v < Pow2(|b|)
  {
    if b == [] then 0 else (if b[0] then 1 else 0) + 2 * FromBits(b[1..])
  }

  lemma {:induction false} FromBitsToBits(v: nat, n: nat)
    requires v < Pow2(n)
    ensures FromBits(ToBits(v, n)) == v
  {
    if n > 0 {
      FromBitsToBits(v / 2, n - 1);
      assert ToBits(v, n)[1..] == ToBits(v / 2, n - 1);
    }
  }

  lemma {:induction false} ToBitsFromBits(b: seq<bool>)
    ensures ToBits(FromBits(b), |b|) == b
  {
    if b != [] {
      var v := FromBits(b);
      assert v / 2 == FromBits(b[1..]);
      assert (v % 2 == 1) == b[0];
      ToBitsFromBits(b[1..]);
    }
  }

  predicate AllSet(b: seq<bool>) {
    forall k | 0 <= k < |b| :: b[k]
  }

  predicate NoneSet(b: seq<bool>) {
    forall k | 0 <= k < |b| :: !b[k]
  }

  /** The low `n` bits of the all-ones field value are all set. */
  lemma {:induction false} AllOnes(n: nat)
    ensures AllSet(ToBits(Pow2(n) - 1, n))
  {
    if n > 0 {
      AllOnes(n - 1);
      assert (Pow2(n) - 1) / 2 == Pow2(n - 1) - 1;
      assert ToBits(Pow2(n) - 1, n) == [true] + ToBits(Pow2(n - 1) - 1, n - 1);
    }
  }

  /** Zero has no bit set. */
  lemma {:induction false} AllZeros(n: nat)
    ensures NoneSet(ToBits(0, n))
  {
    if n > 0 {
      AllZeros(n - 1);
      assert ToBits(0, n) == [false] + ToBits(0, n - 1);
    }
  }

  /** The word as the unsigned 32-bit number a register holds. */
  function ToNat(w: Word): (v: nat)
    ensures v < Pow2(WORD_BITS)
  {
    FromBits(w)
  }

  function FromNat(v: nat): (w: Word)
    requires v < Pow2(WORD_BITS)
    ensures ToNat(w) == v
  {
    FromBitsToBits(v, WORD_BITS);
    ToBits(v, WORD_BITS)
  }

  /** Every word is the bit pattern of exactly one number below 2^32. */
  lemma WordRoundTrip(w: Word)
    ensures FromNat(ToNat(w)) == w
  {
    ToBitsFromBits(w);
  }

  /** `bit_extract` of a single bit, as a truth value. */
  predicate IsSet(w: Word, i: nat)
    requires i < WORD_BITS
  {
    w[i]
  }

  /** Reads the field: `bit_extract(mask, w)`. */
  function Extract(m: BitMask, w: Word): (v: nat)
    requires m.Fits()
    ensures v < Pow2(m.width)
  {
    FromBits(w[m.position .. m.position + m.width])
  }

  /**
   * Writes the low `m.width` bits of `v` into the field and keeps every other
   * bit: `bit_modify(w).insert(mask, v)`.
   */
  function Insert(m: BitMask, w: Word, v: nat): (r: Word)
    requires m.Fits()
    ensures forall i | 0 <= i < WORD_BITS && !m.Covers(i) :: r[i] == w[i]
    ensures forall i | 0 <= i < m.width :: r[m.position + i] == ToBits(v, m.width)[i]
  {
    w[..m.position] + ToBits(v, m.width) + w[m.position + m.width..]
  }

  /** Sets every bit of the field: `bit_modify(w).set(mask)`, that is `w | mask`. */
  function Set(m: BitMask, w: Word): (r: Word)
    requires m.Fits()
  {
    seq(WORD_BITS, i requires 0 <= i < WORD_BITS => m.Covers(i) || w[i])
  }

  /** Clears every bit of the field: `bit_modify(w).clear(mask)`, that is `w & ~mask`. */
  function Clear(m: BitMask, w: Word): (r: Word)
    requires m.Fits()
  {
    seq(WORD_BITS, i requires 0 <= i < WORD_BITS => !m.Covers(i) && w[i])
  }

  /**
   * Masks listed in ascending order: each fits and ends at or before the
   * next one starts.
   */
  predicate Ascending(masks: seq<BitMask>) {
    && (forall k | 0 <= k < |masks| :: masks[k].Fits())
    && (forall k | 0 <= k < |masks| - 1 :: masks[k].position + masks[k].width <= masks[k + 1].position)
  }

  /** Masks listed in ascending order are pairwise disjoint. */
  lemma {:induction false} AscendingDisjoint(masks: seq<BitMask>, i: nat, j: nat)
    requires Ascending(masks) && i < j < |masks|
    ensures masks[i].position + masks[i].width <= masks[j].position
    ensures masks[i].DisjointFrom(masks[j])
  {
    if i + 1 < j {
      AscendingDisjoint(masks, i, j - 1);
    }
  }

  /** Reading a field back returns what was inserted, when it fits. */
  lemma ExtractInsert(m: BitMask, w: Word, v: nat)
    requires m.Fits() && v < Pow2(m.width)
    ensures Extract(m, Insert(m, w, v)) == v
  {
    var r := Insert(m, w, v);
    assert r[m.position .. m.position + m.width] == ToBits(v, m.width);
    FromBitsToBits(v, m.width);
  }

  /** Two bits of a number keep its value modulo 4. */
  lemma TwoBitsValue(v: nat)
    ensures FromBits(ToBits(v, 2)) == v % 4
  {
    var b := ToBits(v, 2);
    assert b[1..] == ToBits(v / 2, 1);
    assert ToBits(v / 2, 1)[1..] == [];
    assert FromBits(ToBits(v / 2, 1)) == (v / 2) % 2;
  }

  /** Only the low two bits of a value written to a two-bit field are kept. */
  lemma ExtractInsertTwoBits(m: BitMask, w: Word, v: nat)
    requires m.Fits() && m.width == 2
    ensures Extract(m, Insert(m, w, v)) == v % 4
  {
    var r := Insert(m, w, v);
    assert r[m.position .. m.position + m.width] == ToBits(v, 2);
    TwoBitsValue(v);
  }

  /** Writing one field leaves every field disjoint from it as it was. */
  lemma ExtractInsertOther(m: BitMask, n: BitMask, w: Word, v: nat)
    requires m.Fits() && n.Fits() && m.DisjointFrom(n)
    ensures Extract(n, Insert(m, w, v)) == Extract(n, w)
  {
    var r := Insert(m, w, v);
    assert r[n.position .. n.position + n.width] == w[n.position .. n.position + n.width];
  }

  /** Setting one field leaves every field disjoint from it as it was. */
  lemma ExtractSetOther(m: BitMask, n: BitMask, w: Word)
    requires m.Fits() && n.Fits() && m.DisjointFrom(n)
    ensures Extract(n, Set(m, w)) == Extract(n, w)
  {
    assert Set(m, w)[n.position .. n.position + n.width] == w[n.position .. n.position + n.width];
  }

  /** Clearing one field leaves every field disjoint from it as it was. */
  lemma ExtractClearOther(m: BitMask, n: BitMask, w: Word)
    requires m.Fits() && n.Fits() && m.DisjointFrom(n)
    ensures Extract(n, Clear(m, w)) == Extract(n, w)
  {
    assert Clear(m, w)[n.position .. n.position + n.width] == w[n.position .. n.position + n.width];
  }

  /** Writing back what a field holds changes nothing. */
  lemma InsertExtract(m: BitMask, w: Word)
    requires m.Fits()
    ensures Insert(m, w, Extract(m, w)) == w
  {
    var field := w[m.position .. m.position + m.width];
    ToBitsFromBits(field);
    assert ToBits(Extract(m, w), m.width) == field;
    assert w[..m.position] + field + w[m.position + m.width..] == w;
  }

  /** The last write to a field wins. */
  lemma InsertInsert(m: BitMask, w: Word, u: nat, v: nat)
    requires m.Fits()
    ensures Insert(m, Insert(m, w, u), v) == Insert(m, w, v)
  {
  }

  /** `set` is the insertion of an all-ones value. */
  lemma SetIsInsertOnes(m: BitMask, w: Word)
    requires m.Fits()
    ensures Set(m, w) == Insert(m, w, Pow2(m.width) - 1)
  {
    AllOnes(m.width);
  }

  /** `clear` is the insertion of zero. */
  lemma ClearIsInsertZero(m: BitMask, w: Word)
    requires m.Fits()
    ensures Clear(m, w) == Insert(m, w, 0)
  {
    AllZeros(m.width);
  }

  /** A single-bit field reads as 1 exactly when its bit is set. */
  lemma ExtractSingle(p: nat, w: Word)
    requires p < WORD_BITS
    ensures Extract(Single(p), w) == if w[p] then 1 else 0
  {
    assert w[p .. p + 1] == [w[p]];
  }
}
