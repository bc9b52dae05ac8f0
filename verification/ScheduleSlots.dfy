/** app/core/utils/schedule_slots.py: a day is 48 half-hour slots, bit i set when slot i is free. */
module ScheduleSlots {
  import opened Prelude
  import opened PyInt

  const SLOT_COUNT := 48
  const FULL_AVAILABLE_MASK: nat := Pow2(48) - 1

  datatype ShiftTemplate = Day | Evening | Night | Off

  /** The bits [start, end). */
  function RangeBits(start: nat, end: nat): int
    requires start <= end
  {
    ShiftLeft(Pow2(end - start) - 1, start)
  }

  function RangeMask(start: nat, end: nat): int
    requires start <= end
  {
    And(FULL_AVAILABLE_MASK, Not(RangeBits(start, end)))
  }

  /** The masks a template gives to its own day and to the day after. */
  function TemplateMasks(template: ShiftTemplate): (int, int) {
    match template
    case Day => (RangeMask(14, 30), FULL_AVAILABLE_MASK)
    case Evening => (RangeMask(30, 46), FULL_AVAILABLE_MASK)
    case Night => (RangeMask(46, 48), RangeMask(0, 14))
    case Off => (FULL_AVAILABLE_MASK, FULL_AVAILABLE_MASK)
  }

  /** Slots in which the first party is at work and the second is free. */
  function ComplementaryMask(busy: int, free: int): int {
    And(And(Not(busy), free), FULL_AVAILABLE_MASK)
  }

  function ComplementarySlotCounts(a: int, b: int): (int, int) {
    ComplementaryMaskBounded(a, b);
    ComplementaryMaskBounded(b, a);
    (BitCount(ComplementaryMask(a, b)), BitCount(ComplementaryMask(b, a)))
  }

  /** The test a care request has to pass. */
  predicate FitsComplementary(start: nat, end: nat, requesterMask: int, providerMask: int)
    requires start <= end
  {
    And(RangeBits(start, end), Not(ComplementaryMask(requesterMask, providerMask))) == 0
  }

  lemma BitOfRange(start: nat, end: nat, i: nat)
    requires start <= end
    ensures Bit(RangeBits(start, end), i) == (start <= i < end)
  {
    BitOfShift(Pow2(end - start) - 1, start, i);
    if i >= start { BitOfOnes(end - start, i - start); }
  }

  /** `_range_mask` clears exactly the slots of the range. */
  lemma BitOfRangeMask(start: nat, end: nat, i: nat)
    requires start <= end
    ensures Bit(RangeMask(start, end), i) == (i < SLOT_COUNT && !(start <= i < end))
  {
    BitOfMasked(FULL_AVAILABLE_MASK, SLOT_COUNT, Not(RangeBits(start, end)), i);
    BitOfNot(RangeBits(start, end), i);
    BitOfRange(start, end, i);
  }

  lemma BitOfComplementary(busy: int, free: int, i: nat)
    ensures Bit(ComplementaryMask(busy, free), i) == (!Bit(busy, i) && Bit(free, i) && i < SLOT_COUNT)
  {
    BitOfMasked(FULL_AVAILABLE_MASK, SLOT_COUNT, And(Not(busy), free), i);
    BitOfAnd(Not(busy), free, i);
    BitOfNot(busy, i);
  }

  lemma BitOfOutside(start: nat, end: nat, mask: int, i: nat)
    requires start <= end
    ensures Bit(And(RangeBits(start, end), Not(mask)), i) == (start <= i < end && !Bit(mask, i))
  {
    BitOfAnd(RangeBits(start, end), Not(mask), i);
    BitOfRange(start, end, i);
    BitOfNot(mask, i);
  }

  lemma ComplementaryMaskBounded(busy: int, free: int)
    ensures 0 <= ComplementaryMask(busy, free) < Pow2(SLOT_COUNT)
  {
    NonNegativeAnd(And(Not(busy), free), FULL_AVAILABLE_MASK, SLOT_COUNT);
  }

  predicate FreeThroughout(mask: int, start: nat, end: nat) {
    forall i: nat :: start <= i < end ==> Bit(mask, i)
  }

  predicate BusyThroughout(mask: int, start: nat, end: nat) {
    forall i: nat :: start <= i < end ==> !Bit(mask, i)
  }

  /** The bit test passes exactly when each requested slot is free for the provider and taken for the requester. */
  lemma FitsComplementaryMeans(start: nat, end: nat, requesterMask: int, providerMask: int)
    requires start <= end <= SLOT_COUNT
    ensures FitsComplementary(start, end, requesterMask, providerMask)
            <==> BusyThroughout(requesterMask, start, end) && FreeThroughout(providerMask, start, end)
  {
    var complementary := ComplementaryMask(requesterMask, providerMask);
    RangeOutsideMeans(start, end, requesterMask, providerMask, complementary,
                      And(RangeBits(start, end), Not(complementary)));
  }

  lemma RangeOutsideMeans(start: nat, end: nat, requesterMask: int, providerMask: int, complementary: int, test: int)
    requires start <= end <= SLOT_COUNT
    requires complementary == ComplementaryMask(requesterMask, providerMask)
    requires test == And(RangeBits(start, end), Not(complementary))
    ensures test == 0 <==> BusyThroughout(requesterMask, start, end) && FreeThroughout(providerMask, start, end)
  {
    if test == 0 {
      forall i: nat | start <= i < end ensures !Bit(requesterMask, i) && Bit(providerMask, i) {
        BitOfOutside(start, end, complementary, i);
        BitOfComplementary(requesterMask, providerMask, i);
        BitOfConstant(i);
      }
    } else {
      var i := NonZeroHasBit(test);
      BitOfOutside(start, end, complementary, i);
      BitOfComplementary(requesterMask, providerMask, i);
    }
  }

  /** Nobody can be asked to cover for themselves. */
  lemma NoSelfCover(start: nat, end: nat, mask: int)
    requires start < end <= SLOT_COUNT
    ensures !FitsComplementary(start, end, mask, mask)
  {
    FitsComplementaryMeans(start, end, mask, mask);
    assert FreeThroughout(mask, start, end) ==> Bit(mask, start);
  }

  function Differ(a: int, b: int): nat -> bool { (i: nat) => Bit(a, i) != Bit(b, i) }

  /** The first party is at work and the second one free. */
  function Covers(busy: int, free: int): nat -> bool { (i: nat) => !Bit(busy, i) && Bit(free, i) }

  /** How many slots either can cover for the other; together the Hamming distance, which never exceeds a day. */
  lemma ComplementaryCountsAddUp(a: int, b: int)
    ensures var (ab, ba) := ComplementarySlotCounts(a, b);
            && ab == Count(SLOT_COUNT, Covers(a, b)) && ba == Count(SLOT_COUNT, Covers(b, a))
            && ab + ba == Count(SLOT_COUNT, Differ(a, b)) <= 48
  {
    var ab, ba := ComplementaryMask(a, b), ComplementaryMask(b, a);
    ComplementaryMaskBounded(a, b);
    ComplementaryMaskBounded(b, a);
    BitCountCounts(ab, SLOT_COUNT);
    BitCountCounts(ba, SLOT_COUNT);
    forall i: nat | i < SLOT_COUNT
      ensures Ones(ab)(i) == (!Bit(a, i) && Bit(b, i)) && Ones(ba)(i) == (!Bit(b, i) && Bit(a, i))
    {
      BitOfComplementary(a, b, i);
      BitOfComplementary(b, a, i);
    }
    CountSame(SLOT_COUNT, Ones(ab), Covers(a, b));
    CountSame(SLOT_COUNT, Ones(ba), Covers(b, a));
    CountSplit(SLOT_COUNT, Ones(ab), Ones(ba), Differ(a, b));
    CountMonotone(SLOT_COUNT, Differ(a, b), Differ(a, b));
  }
}
