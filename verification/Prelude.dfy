/** Shared vocabulary: optional values and finite sums over an index range. */
module Prelude {

  /** In microseconds, the unit of all times. */
  const MINUTE := 60_000_000

  datatype Option<+T> = None | Some(value: T)

  function Min(a: int, b: int): int { if a <= b then a else b }

  function Max(a: int, b: int): int { if a >= b then a else b }

  /** f(0) + ... + f(n - 1) */
  function Sum(n: nat, f: nat -> int): int {
    if n == 0 then 0 else Sum(n - 1, f) + f(n - 1)
  }

  /** How many of 0 .. n - 1 satisfy p. */
  function Count(n: nat, p: nat -> bool): nat {
    if n == 0 then 0 else Count(n - 1, p) + if p(n - 1) then 1 else 0
  }

  lemma {:induction false} SumSame(n: nat, f: nat -> int, g: nat -> int)
    requires forall i: nat :: i < n ==> f(i) == g(i)
    ensures Sum(n, f) == Sum(n, g)
  {
    if n == 0 {
    } else {
      SumSame(n - 1, f, g);
    }
  }

  /** Two summands that differ at one index only give sums that differ by that difference. */
  lemma {:induction false} SumDelta(n: nat, f: nat -> int, g: nat -> int, k: nat)
    requires k < n
    requires forall i: nat :: i < n && i != k ==> f(i) == g(i)
    ensures Sum(n, g) == Sum(n, f) + g(k) - f(k)
  {
    if k == n - 1 { SumSame(n - 1, f, g); } else { SumDelta(n - 1, f, g, k); }
  }

  lemma {:induction false} SumAdd(n: nat, f: nat -> int, g: nat -> int, h: nat -> int)
    requires forall i: nat :: i < n ==> h(i) == f(i) + g(i)
    ensures Sum(n, h) == Sum(n, f) + Sum(n, g)
  {
    if n == 0 {
    } else {
      SumAdd(n - 1, f, g, h);
    }
  }

  lemma {:induction false} SumLower(n: nat, f: nat -> int)
    requires forall i: nat :: i < n ==> f(i) >= 0
    ensures Sum(n, f) >= 0
    ensures forall i: nat :: i < n ==> f(i) <= Sum(n, f)
  {
    if n == 0 {
    } else {
      SumLower(n - 1, f);
    }
  }

  lemma {:induction false} SumZero(n: nat, f: nat -> int)
    requires forall i: nat :: i < n ==> f(i) == 0
    ensures Sum(n, f) == 0
  {
    if n == 0 {
    } else {
      SumZero(n - 1, f);
    }
  }

  /** A sum of non-negative terms is zero exactly when they all are. */
  lemma SumIsZero(n: nat, f: nat -> int)
    requires forall i: nat :: i < n ==> f(i) >= 0
    ensures Sum(n, f) >= 0 && (Sum(n, f) == 0 <==> forall i: nat :: i < n ==> f(i) == 0)
  {
    SumLower(n, f);
    if forall i: nat :: i < n ==> f(i) == 0 { SumZero(n, f); }
  }

  lemma {:induction false} CountSame(n: nat, p: nat -> bool, q: nat -> bool)
    requires forall i: nat :: i < n ==> p(i) == q(i)
    ensures Count(n, p) == Count(n, q)
  {
    if n == 0 {
    } else {
      CountSame(n - 1, p, q);
    }
  }

  lemma {:induction false} CountMonotone(n: nat, p: nat -> bool, q: nat -> bool)
    requires forall i: nat :: i < n && p(i) ==> q(i)
    ensures Count(n, p) <= Count(n, q) <= n
  {
    if n == 0 {
    } else {
      CountMonotone(n - 1, p, q);
    }
  }

  lemma {:induction false} CountNone(n: nat, p: nat -> bool)
    ensures Count(n, p) == 0 <==> forall i: nat :: i < n ==> !p(i)
  {
    if n == 0 {
    } else {
      CountNone(n - 1, p);
    }
  }

  lemma {:induction false} CountDelta(n: nat, p: nat -> bool, q: nat -> bool, k: nat)
    requires k < n
    requires forall i: nat :: i < n && i != k ==> p(i) == q(i)
    ensures Count(n, q) + (if p(k) then 1 else 0) == Count(n, p) + (if q(k) then 1 else 0)
  {
    if k == n - 1 { CountSame(n - 1, p, q); } else { CountDelta(n - 1, p, q, k); }
  }

  /** Splitting off index 0 instead of the last one. */
  lemma {:induction false} CountShift(n: nat, p: nat -> bool, q: nat -> bool)
    requires n > 0
    requires forall i: nat :: i < n - 1 ==> q(i) == p(i + 1)
    ensures Count(n, p) == (if p(0) then 1 else 0) + Count(n - 1, q)
  {
    if n == 1 {
      assert Count(0, p) == 0;
    } else {
      CountShift(n - 1, p, q);
    }
  }

  /** A predicate split into two exclusive cases is counted by their two counts. */
  lemma {:induction false} CountSplit(n: nat, p: nat -> bool, q: nat -> bool, r: nat -> bool)
    requires forall i: nat :: i < n ==> !(p(i) && q(i)) && (r(i) <==> p(i) || q(i))
    ensures Count(n, r) == Count(n, p) + Count(n, q)
  {
    if n == 0 {
    } else {
      CountSplit(n - 1, p, q, r);
    }
  }

  /** Some element of a non-empty set. */
  ghost function Pick<T>(items: set<T>): (item: T)
    requires items != {}
    ensures item in items
  {
    var item :| item in items; item
  }

  function Ratio(part: int, whole: nat, default: real): real {
    if whole == 0 then default else part as real / whole as real
  }

  predicate Unit(x: real) { 0.0 <= x <= 1.0 }

  lemma RatioIsUnit(part: nat, whole: nat, default: real)
    requires part <= whole && Unit(default)
    ensures Unit(Ratio(part, whole, default))
  {
    if whole > 0 {
      assert part as real / whole as real <= whole as real / whole as real;
    }
  }
}
