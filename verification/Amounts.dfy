/** Status codes and the checked 64-bit amounts every other module computes with. */
module Amounts {
  const U64_MAX: int := 0xFFFF_FFFF_FFFF_FFFF
  const U64_SIZE: int := 0x1_0000_0000_0000_0000
  const U32_SIZE: int := 0x1_0000_0000
  const BPS: int := 10000
  const MAX_BPS: int := 100000

  type Amount = x: int | 0 <= x <= 0xFFFF_FFFF_FFFF_FFFF
  type U32 = x: int | 0 <= x <= 0xFFFF_FFFF

  datatype Status =
    | Ok
    | ErrArgument
    | ErrCapacity
    | ErrNotFound
    | ErrDuplicate
    | ErrSignature
    | ErrBalance
    | ErrPolicy
    | ErrState
    | ErrExpired
    | ErrInternal

  datatype Result<+T> = Success(value: T) | Failure(error: Status) {
    predicate IsFailure() {
      Failure?
    }

    function PropagateFailure<U>(): Result<U>
      requires Failure?
    {
      Failure(error)
    }

    function Extract(): T
      requires Success?
    {
      value
    }
  }

  datatype Option<+T> = None | Some(value: T) {
    predicate IsFailure() {
      None?
    }

    function PropagateFailure<U>(): Option<U>
      requires None?
    {
      None
    }

    function Extract(): T
      requires Some?
    {
      value
    }
  }

  /** Unsigned 64-bit wrap-around. */
  function Wrap64(x: int): Amount {
    x % U64_SIZE
  }

  function Min(x: int, y: int): int {
    if x < y then x else y
  }

  function Max(x: int, y: int): int {
    if x < y then y else x
  }

  function Add(left: Amount, right: Amount): Result<Amount> {
    if U64_MAX - left < right then Failure(ErrPolicy) else Success(left + right)
  }

  function Sub(left: Amount, right: Amount): Result<Amount> {
    if left < right then Failure(ErrBalance) else Success(left - right)
  }

  /** Basis-point share of an amount. The guard divides instead of multiplying; the product is taken in 64 bits, so only
      the guard keeps it from wrapping. */
  function MulBps(amount: Amount, bps: U32): (r: Result<Amount>)
    ensures r.Success? <==> bps <= MAX_BPS && amount * bps <= U64_MAX
    ensures r.Success? ==> r.value == Floor(amount * bps, BPS)
    ensures r.Failure? ==> r.error == ErrPolicy
  {
    if bps > MAX_BPS then Failure(ErrPolicy)
    else if amount != 0 && bps > U64_MAX / amount then
      QuotientGuard(amount, bps);
      Failure(ErrPolicy)
    else
      QuotientGuard(amount, bps);
      Success(Wrap64(amount * bps) / BPS)
  }

  /** Floor division of non-negative numbers. */
  function Floor(n: int, d: int): (q: int)
    requires 0 <= n && 0 < d
    ensures 0 <= q && q * d <= n < (q + 1) * d
  {
    DivisionBounds(n, d);
    n / d
  }

  /** What floor division leaves over. */
  function Remainder(n: int, d: int): (r: int)
    requires 0 <= n && 0 < d
    ensures 0 <= r < d && n == Floor(n, d) * d + r
  {
    n % d
  }

  lemma DivisionBounds(n: int, d: int)
    requires 0 <= n && 0 < d
    ensures 0 <= n / d && (n / d) * d <= n < (n / d + 1) * d
  {
    assert n == (n / d) * d + n % d;
  }

  /** Dividing the bound by the amount decides whether the product fits. */
  lemma QuotientGuard(amount: Amount, bps: U32)
    ensures amount != 0 && bps > U64_MAX / amount <==> amount * bps > U64_MAX
    ensures amount * bps <= U64_MAX ==> 0 <= amount * bps && Wrap64(amount * bps) == amount * bps
  {
    if amount != 0 {
      DivisionBounds(U64_MAX, amount);
      var q := U64_MAX / amount;
      if bps > q {
        MulMonotone(q + 1, bps, amount);
      } else {
        MulMonotone(bps, q, amount);
      }
    }
  }

  lemma MulMonotone(x: int, y: int, f: int)
    requires x <= y && 0 <= f
    ensures x * f <= y * f && f * x <= f * y
  {
  }

  /** Floor is the largest quotient: the two inequalities pin it down. */
  lemma {:induction false} FloorUnique(n: int, d: int, q: int)
    requires 0 <= n && 0 < d
    requires q * d <= n < (q + 1) * d
    ensures q == Floor(n, d)
  {
    var f := Floor(n, d);
    if q < f {
      MulMonotone(q + 1, f, d);
    } else if f < q {
      MulMonotone(f + 1, q, d);
    }
  }

  /** A quotient bounded below by what it multiplies back to. */
  lemma {:induction false} FloorAtLeast(n: int, d: int, q: int)
    requires 0 <= n && 0 < d
    requires q * d <= n
    ensures q <= Floor(n, d)
  {
    if Floor(n, d) < q {
      MulMonotone(Floor(n, d) + 1, q, d);
    }
  }

  lemma {:induction false} FloorMonotone(n: int, m: int, d: int)
    requires 0 <= n <= m && 0 < d
    ensures Floor(n, d) <= Floor(m, d)
  {
    FloorAtLeast(m, d, Floor(n, d));
  }

  lemma {:induction false} FloorAntitone(n: int, d: int, e: int)
    requires 0 <= n && 0 < d <= e
    ensures Floor(n, e) <= Floor(n, d)
  {
    MulMonotone(d, e, Floor(n, e));
    FloorAtLeast(n, d, Floor(n, e));
  }

  /** Splitting a fee rate in two never charges more than the joint rate. */
  lemma {:induction false} FloorSuperadditive(n: int, m: int, d: int)
    requires 0 <= n && 0 <= m && 0 < d
    ensures Floor(n, d) + Floor(m, d) <= Floor(n + m, d)
  {
    assert (Floor(n, d) + Floor(m, d)) * d == Floor(n, d) * d + Floor(m, d) * d;
    FloorAtLeast(n + m, d, Floor(n, d) + Floor(m, d));
  }

  /** How much of the denominator the numerator is, on the given scale, capped at the whole. */
  function Ratio(numerator: Amount, denominator: Amount, scale: U32): (r: U32)
    ensures r <= scale
  {
    if denominator == 0 then 0
    else
      MulMonotone(0, numerator, scale);
      Min(scale, Floor(numerator * scale, denominator))
  }

  /** Below the cap the ratio is the plain quotient. */
  lemma {:induction false} RatioIsFloor(numerator: Amount, denominator: Amount, scale: U32)
    requires numerator <= denominator && 0 < denominator
    ensures 0 <= numerator * scale && Ratio(numerator, denominator, scale) == Floor(numerator * scale, denominator)
  {
    MulMonotone(0, numerator, scale);
    MulMonotone(numerator, denominator, scale);
    FloorMonotone(numerator * scale, denominator * scale, denominator);
    FloorUnique(denominator * scale, denominator, scale);
  }

  lemma {:induction false} RatioMonotone(n: Amount, m: Amount, denominator: Amount, scale: U32)
    requires n <= m
    ensures Ratio(n, denominator, scale) <= Ratio(m, denominator, scale)
  {
    if denominator > 0 {
      MulMonotone(0, n, scale);
      MulMonotone(n, m, scale);
      FloorMonotone(n * scale, m * scale, denominator);
    }
  }

  lemma {:induction false} RatioAntitone(n: Amount, d: Amount, e: Amount, scale: U32)
    requires 0 < d <= e
    ensures Ratio(n, e, scale) <= Ratio(n, d, scale)
  {
    MulMonotone(0, n, scale);
    FloorAntitone(n * scale, d, e);
  }

  /** A numerator at least as large as the denominator reaches the cap. */
  lemma {:induction false} RatioCap(numerator: Amount, denominator: Amount, scale: U32)
    requires 0 < denominator <= numerator
    ensures Ratio(numerator, denominator, scale) == scale
  {
    MulMonotone(denominator, numerator, scale);
    MulMonotone(0, numerator, scale);
    FloorAtLeast(numerator * scale, denominator, scale);
  }

  /** One turn of the long division: neither the difference nor the sum it forms ever reaches the denominator. */
  method RatioTurn(numerator: Amount, denominator: Amount, remainder: Amount, result: U32)
    returns (newRemainder: Amount, newResult: U32)
    requires 0 < numerator < denominator && remainder < denominator && result < U32_SIZE - 1
    ensures newRemainder < denominator && result <= newResult <= result + 1
    ensures newResult * denominator + newRemainder == result * denominator + remainder + numerator
  {
    if remainder >= denominator - numerator {
      return remainder - (denominator - numerator), result + 1;
    }
    return remainder + numerator, result;
  }

  /** Long division by repeated addition: as many turns as the scale, and no multiplication. */
  method RatioScaled(numerator: Amount, denominator: Amount, scale: U32) returns (result: U32)
    ensures result == Ratio(numerator, denominator, scale)
  {
    if denominator == 0 || numerator == 0 || scale == 0 {
      RatioOfNothing(numerator, denominator, scale);
      return 0;
    }
    if numerator >= denominator {
      RatioCap(numerator, denominator, scale);
      return scale;
    }
    var remainder: Amount := 0;
    result := 0;
    for index := 0 to scale
      invariant remainder < denominator && result <= index
      invariant index * numerator == result * denominator + remainder
    {
      remainder, result := RatioTurn(numerator, denominator, remainder, result);
    }
    FloorUnique(numerator * scale, denominator, result);
  }

  lemma {:induction false} RatioOfNothing(numerator: Amount, denominator: Amount, scale: U32)
    requires denominator == 0 || numerator == 0 || scale == 0
    ensures Ratio(numerator, denominator, scale) == 0
  {
    if denominator != 0 {
      FloorUnique(0, denominator, 0);
    }
  }
}
