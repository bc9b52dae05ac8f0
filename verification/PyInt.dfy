/** Python's `int` under the bitwise operators: unbounded, in two's complement. */
module PyInt {
  import opened Prelude

  function Pow2(n: nat): (p: nat)
    ensures p >= 1
  {
    if n == 0 then 1 else 2 * Pow2(n - 1)
  }

  /**
   * Bit i of x; negative numbers have infinitely many ones on the left. The second part of the measure is there for the
   * solver: it would otherwise evaluate the function at literal masks.
   */
  predicate Bit(x: int, i: nat)
    decreases i, x
  {
    if i == 0 then x % 2 == 1 else Bit(x / 2, i - 1)
  }

  function ShiftLeft(x: int, n: nat): int { x * Pow2(n) }

  function Not(x: int): int { -x - 1 }

  function And(x: int, y: int): int
    decreases if x < 0 then -x else x, y
  {
    if x == 0 then 0
    else if x == -1 then y
    else 2 * And(x / 2, y / 2) + if x % 2 == 1 && y % 2 == 1 then 1 else 0
  }

  /** `int.bit_count` of a non-negative number. */
  function BitCount(x: nat): nat { if x == 0 then 0 else x % 2 + BitCount(x / 2) }

  function Ones(x: int): nat -> bool { (i: nat) => Bit(x, i) }

  lemma {:induction false} BitOfConstant(i: nat)
    ensures !Bit(0, i) && Bit(-1, i)
  {
    if i == 0 {
    } else {
      BitOfConstant(i - 1);
    }
  }

  lemma {:induction false} BitOfNot(x: int, i: nat)
    ensures Bit(Not(x), i) == !Bit(x, i)
    decreases i
  {
    if i == 0 {
    } else {
      assert Not(x) / 2 == Not(x / 2);
      BitOfNot(x / 2, i - 1);
    }
  }

  lemma {:induction false} BitOfAnd(x: int, y: int, i: nat)
    ensures Bit(And(x, y), i) == (Bit(x, i) && Bit(y, i))
    decreases i
  {
    BitOfConstant(i);
    if x != 0 && x != -1 && i > 0 {
      assert And(x, y) / 2 == And(x / 2, y / 2);
      BitOfAnd(x / 2, y / 2, i - 1);
    }
  }

  lemma {:induction false} BitOfOnes(n: nat, i: nat)
    ensures Bit(Pow2(n) - 1, i) == (i < n)
  {
    if n == 0 {
      BitOfConstant(i);
    } else {
      assert (Pow2(n) - 1) / 2 == Pow2(n - 1) - 1;
      if i > 0 { BitOfOnes(n - 1, i - 1); }
    }
  }

  /** Masking with n ones keeps the lowest n bits. */
  lemma BitOfMasked(full: int, n: nat, x: int, i: nat)
    requires full == Pow2(n) - 1
    ensures Bit(And(full, x), i) == Bit(And(x, full), i) == (i < n && Bit(x, i))
  {
    BitOfAnd(full, x, i);
    BitOfAnd(x, full, i);
    BitOfOnes(n, i);
  }

  lemma {:induction false} BitOfShift(x: int, n: nat, i: nat)
    ensures Bit(ShiftLeft(x, n), i) == (i >= n && Bit(x, i - n))
    decreases n
  {
    if n == 0 {
      assert ShiftLeft(x, n) == x;
    } else {
      assert ShiftLeft(x, n) == 2 * ShiftLeft(x, n - 1) by {
        assert x * Pow2(n) == x * (2 * Pow2(n - 1)) == 2 * (x * Pow2(n - 1));
      }
      if i > 0 { BitOfShift(x, n - 1, i - 1); }
    }
  }

  /** A number is zero exactly when none of its bits is set; otherwise one can be shown. */
  lemma {:induction false} NonZeroHasBit(x: int) returns (i: nat)
    requires x != 0
    ensures Bit(x, i)
    decreases if x < 0 then -x else x
  {
    if x % 2 == 1 {
      i := 0;
    } else {
      var j := NonZeroHasBit(x / 2);
      i := j + 1;
    }
  }

  lemma {:induction false} NonNegativeAnd(x: int, y: nat, n: nat)
    requires y < Pow2(n)
    ensures 0 <= And(x, y) < Pow2(n)
    decreases n
  {
    if x != 0 && x != -1 {
      if n == 0 {
        assert y == 0 && y / 2 == 0;
        AndZero(x / 2);
      } else {
        NonNegativeAnd(x / 2, y / 2, n - 1);
      }
    }
  }

  lemma {:induction false} AndZero(x: int)
    ensures And(x, 0) == 0
    decreases if x < 0 then -x else x
  {
    if x != 0 && x != -1 { AndZero(x / 2); }
  }

  lemma {:induction false} BitCountCounts(x: nat, n: nat)
    requires x < Pow2(n)
    ensures BitCount(x) == Count(n, Ones(x))
    decreases n
  {
    if n == 0 {
    } else {
      BitCountCounts(x / 2, n - 1);
      CountShift(n, Ones(x), Ones(x / 2));
      assert x > 0 ==> BitCount(x) == x % 2 + BitCount(x / 2);
    }
  }
}
