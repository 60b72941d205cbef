/** The shared kernel: checked money and quantity arithmetic, and the sums every aggregate is stated with.

An `Amount` is a non-negative int64 and a `Quantity` a non-negative int32, so a function that returns one
has been proved not to overflow. */
module Kernel {

  const MAX_INT64: int := 0x7FFF_FFFF_FFFF_FFFF
  const MAX_QUANTITY: int := 0x7FFF_FFFF
  const MAX_BASIS_POINTS: int := 10_000

  type Amount = x: int | 0 <= x <= MAX_INT64
  type Quantity = x: int | 0 <= x <= MAX_QUANTITY
  type BasisPoints = x: int | 0 <= x <= MAX_BASIS_POINTS
  type Currency = string

  /** An opaque identifier; `BLANK` stands for the empty string. */
  type Reference = nat
  const BLANK: Reference := 0

  /** A point in time in seconds; `NO_TIME` stands for the zero time. */
  type Time = int
  const NO_TIME: Time := 0

  datatype Option<+T> = None | Some(value: T)

  datatype Result<+T, +E> = Ok(value: T) | Err(error: E)

  datatype MoneyError = MoneyCurrencyMismatch | MoneyOverflow | NegativeAmount

  datatype Money = Money(amount: Amount, currency: Currency) {

    predicate IsZero() { amount == 0 }

    function Add(other: Money): (r: Result<Money, MoneyError>)
      ensures r.Ok? <==> currency == other.currency && amount + other.amount <= MAX_INT64
      ensures r.Ok? ==> r.value.amount == amount + other.amount && r.value.currency == currency
    {
      if currency != other.currency then Err(MoneyCurrencyMismatch)
      else if other.amount > MAX_INT64 - amount then Err(MoneyOverflow)
      else Ok(Money(amount + other.amount, currency))
    }

    function Sub(other: Money): (r: Result<Money, MoneyError>)
      ensures r.Ok? <==> currency == other.currency && other.amount <= amount
      ensures r.Ok? ==> r.value.Add(other) == Ok(this)
    {
      if currency != other.currency then Err(MoneyCurrencyMismatch)
      else if amount < other.amount then Err(NegativeAmount)
      else Ok(Money(amount - other.amount, currency))
    }

    /** The guard divides instead of multiplying, so it cannot overflow itself; it is exact all the same. */
    function MulQuantity(q: Quantity): (r: Result<Money, MoneyError>)
      ensures r.Ok? <==> amount * q <= MAX_INT64
      ensures r.Ok? ==> r.value == Money(amount * q, currency)
    {
      DivideGuard(amount, q);
      if q != 0 && amount > MAX_INT64 / q then Err(MoneyOverflow)
      else Ok(Money(amount * q, currency))
    }

    /** The split into whole ten-thousands and a rest keeps every intermediate value in int64;
        it computes exactly the rounded-down percentage, which never exceeds the amount. */
    function ApplyPercent(bp: BasisPoints): (r: Money)
      ensures r.amount == amount * bp / MAX_BASIS_POINTS
      ensures r.amount <= amount
      ensures r.currency == currency
    {
      var whole: Amount := amount / MAX_BASIS_POINTS;
      var rest: Amount := amount % MAX_BASIS_POINTS;
      SplitPercent(amount, whole, rest, bp);
      var high: Amount := whole * bp;
      var low: Amount := rest * bp;
      Money(high + low / MAX_BASIS_POINTS, currency)
    }
  }

  lemma DivideGuard(amount: Amount, q: Quantity)
    ensures q != 0 ==> (amount > MAX_INT64 / q <==> amount * q > MAX_INT64)
  {
    if q != 0 {
      var limit := MAX_INT64 / q;
      if amount > limit {
        assert (limit + 1) * q > MAX_INT64;
        MulMonotone(limit + 1, amount, q);
      } else {
        MulMonotone(amount, limit, q);
      }
    }
  }

  lemma MulMonotone(x: int, y: int, z: int)
    requires x <= y && 0 <= z
    ensures x * z <= y * z
  {
    assert (y - x) * z >= 0;
  }

  lemma SplitPercent(amount: Amount, whole: int, rest: int, bp: BasisPoints)
    requires amount == MAX_BASIS_POINTS * whole + rest && 0 <= rest < MAX_BASIS_POINTS && 0 <= whole
    ensures 0 <= whole * bp && 0 <= rest * bp <= MAX_INT64
    ensures whole * bp + rest * bp / MAX_BASIS_POINTS == amount * bp / MAX_BASIS_POINTS <= amount
  {
    MulMonotone(0, whole, bp);
    MulMonotone(0, rest, bp);
    MulMonotone(rest, MAX_BASIS_POINTS, bp);
    assert amount * bp == MAX_BASIS_POINTS * (whole * bp) + rest * bp by {
      assert amount * bp == (MAX_BASIS_POINTS * whole) * bp + rest * bp;
      assert (MAX_BASIS_POINTS * whole) * bp == MAX_BASIS_POINTS * (whole * bp);
    }
    assert amount * bp <= amount * MAX_BASIS_POINTS by { MulMonotone(bp, MAX_BASIS_POINTS, amount); }
  }

  function QuantityAdd(a: Quantity, b: Quantity): (r: Option<Quantity>)
    ensures r.Some? <==> a + b <= MAX_QUANTITY
    ensures r.Some? ==> r.value == a + b
  {
    if b > MAX_QUANTITY - a then None else Some(a + b)
  }

  function QuantitySub(a: Quantity, b: Quantity): (r: Option<Quantity>)
    ensures r.Some? <==> b <= a
    ensures r.Some? ==> r.value == a - b
  {
    if a < b then None else Some(a - b)
  }

  /** The first place in `s` where the key is `k`, or -1. */
  function FindFirst<T, K(==)>(s: seq<T>, key: T -> K, k: K): (i: int)
    ensures -1 <= i < |s|
    ensures i >= 0 ==> key(s[i]) == k && forall j :: 0 <= j < i ==> key(s[j]) != k
    ensures i < 0 ==> forall j :: 0 <= j < |s| ==> key(s[j]) != k
  {
    if s == [] then -1
    else
      var i := FindFirst(s[..|s| - 1], key, k);
      if i >= 0 then i else if key(s[|s| - 1]) == k then |s| - 1 else -1
  }

  /** Sums of a measure over a sequence. */
  function Sum<T>(s: seq<T>, f: T -> int): int
  {
    if s == [] then 0 else Sum(s[..|s| - 1], f) + f(s[|s| - 1])
  }

  lemma SumAppend<T>(s: seq<T>, x: T, f: T -> int)
    ensures Sum(s + [x], f) == Sum(s, f) + f(x)
  {
    assert (s + [x])[..|s|] == s;
  }

  lemma {:induction false} SumUpdate<T>(s: seq<T>, i: nat, x: T, f: T -> int)
    requires i < |s|
    ensures Sum(s[i := x], f) == Sum(s, f) - f(s[i]) + f(x)
  {
    if i == |s| - 1 {
      assert s[i := x][..|s| - 1] == s[..|s| - 1];
    } else {
      SumUpdate(s[..|s| - 1], i, x, f);
      assert s[i := x][..|s| - 1] == s[..|s| - 1][i := x];
    }
  }

  lemma {:induction false} SumTake<T>(s: seq<T>, i: nat, f: T -> int)
    requires i < |s|
    ensures Sum(s[..i + 1], f) == Sum(s[..i], f) + f(s[i])
  {
    assert s[..i + 1][..i] == s[..i];
  }

  lemma {:induction false} SumNonNegative<T>(s: seq<T>, f: T -> int)
    requires forall x :: x in s ==> f(x) >= 0
    ensures Sum(s, f) >= 0
    ensures forall x :: x in s ==> f(x) <= Sum(s, f)
  {
    if s != [] {
      var init, last := s[..|s| - 1], s[|s| - 1];
      assert last in s;
      forall x | x in init ensures f(x) >= 0 { assert x in s; }
      SumNonNegative(init, f);
      forall x | x in s ensures f(x) <= Sum(s, f) {
        assert x == last || x in init;
      }
    }
  }

  lemma {:induction false} SumPart<T>(s: seq<T>, i: nat, f: T -> int)
    requires i <= |s| && forall x :: x in s ==> f(x) >= 0
    ensures Sum(s[..i], f) <= Sum(s, f)
  {
    if i == |s| {
      assert s[..i] == s;
    } else {
      assert s[|s| - 1] in s;
      assert forall x :: x in s[..|s| - 1] ==> x in s;
      SumPart(s[..|s| - 1], i, f);
      assert s[..|s| - 1][..i] == s[..i];
    }
  }
}
