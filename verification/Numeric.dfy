/** The machine integers of the program, its error codes, its checked arithmetic, and
    the facts about floored and truncated division that the proofs rest on. */
module Numeric {

  /** The u128, i128 and i64 of the program, as ranges of the mathematical integers. */
  type u128 = x: int | 0 <= x < 0x1_0000_0000_0000_0000_0000_0000_0000_0000
  type i128 = x: int | -0x8000_0000_0000_0000_0000_0000_0000_0000 <= x < 0x8000_0000_0000_0000_0000_0000_0000_0000
  type i64 = x: int | -0x8000_0000_0000_0000 <= x < 0x8000_0000_0000_0000
  type u64 = x: int | 0 <= x < 0x1_0000_0000_0000_0000

  datatype Error =
    | MathError
    | CastingFailure
    | BnConversionError
    | TradeSizeTooSmall
    | MaxNumberOfPositions
    | UserHasNoPositionInMarket
    | InsufficientDeposit
    | InsufficientCollateral
    | SufficientCollateral
    | OracleMarkSpreadLimit
    | SlippageOutsideLimit
    | LiquidationsBlockedByOracle
    | InvalidFundingProfitability
    | InvalidRepegRedundant
    | InvalidRepegDirection
    | InvalidRepegProfitability
    | AdminWithdrawTooLarge
    | InvalidInitialPeg
    | MarketIndexAlreadyInitialized
    | MarketIndexNotInitialized
    | CantDeleteUserWithCollateral
    | AccountNotFound

  datatype Option<+T> = None | Some(value: T)

  /** The program's result type; failure-compatible, so that `:-` reads like `?`. */
  datatype Result<+T> = Ok(value: T) | Err(error: Error) {
    predicate IsFailure() {
      Err?
    }

    function PropagateFailure<U>(): Result<U>
      requires Err?
    {
      Err(error)
    }

    function Extract(): T
      requires Ok?
    {
      value
    }
  }

  /** Fails with the given error when the condition does not hold. */
  function Need(condition: bool, error: Error): Result<()> {
    if condition then Ok(()) else Err(error)
  }

  // Checked arithmetic: the exact mathematical result, or the error of the failing check.

  function FitU128(x: int): Result<u128> {
    if 0 <= x < 0x1_0000_0000_0000_0000_0000_0000_0000_0000 then Ok(x) else Err(MathError)
  }

  function FitI128(x: int): Result<i128> {
    if -0x8000_0000_0000_0000_0000_0000_0000_0000 <= x < 0x8000_0000_0000_0000_0000_0000_0000_0000
    then Ok(x) else Err(MathError)
  }

  function FitI64(x: int): Result<i64> {
    if -0x8000_0000_0000_0000 <= x < 0x8000_0000_0000_0000 then Ok(x) else Err(MathError)
  }

  /** Products taken in the 192-bit integers. */
  function FitU192(x: int): Result<nat> {
    if 0 <= x < 0x1_0000_0000_0000_0000_0000_0000_0000_0000_0000_0000_0000_0000 then Ok(x) else Err(MathError)
  }

  /** Conversion of a wide integer back to u128. */
  function NarrowU128(x: nat): Result<u128> {
    if x < 0x1_0000_0000_0000_0000_0000_0000_0000_0000 then Ok(x) else Err(BnConversionError)
  }

  function CastU128(x: int): Result<u128> {
    if 0 <= x < 0x1_0000_0000_0000_0000_0000_0000_0000_0000 then Ok(x) else Err(CastingFailure)
  }

  function CastI128(x: int): Result<i128> {
    if -0x8000_0000_0000_0000_0000_0000_0000_0000 <= x < 0x8000_0000_0000_0000_0000_0000_0000_0000
    then Ok(x) else Err(CastingFailure)
  }

  /** Unsigned division. */
  function DivU(x: nat, d: nat): Result<nat> {
    if d == 0 then Err(MathError) else Ok(x / d)
  }

  /** Signed division in i128. */
  function DivI(x: i128, d: i128): Result<i128> {
    if d == 0 then Err(MathError) else FitI128(TruncDiv(x, d))
  }

  function Abs(x: int): nat {
    if x < 0 then -x else x
  }

  function Max(x: int, y: int): int {
    if x < y then y else x
  }

  function Min(x: int, y: int): int {
    if x < y then x else y
  }

  /** Division that rounds toward zero, as the program and the SDK both divide. */
  function TruncDiv(x: int, d: int): int
    requires d != 0
  {
    var magnitude := Abs(x) / Abs(d);
    if (x < 0) == (d < 0) then magnitude else -magnitude
  }

  // ----- Floored division

  /** The quotient q of x by d is the one integer with q*d <= x < (q+1)*d. */
  lemma FloorBounds(x: int, d: int)
    requires d > 0
    ensures x / d * d <= x < x / d * d + d
  {
    assert x == x / d * d + x % d;
  }

  lemma FloorUnique(x: int, d: int, q: int)
    requires d > 0
    requires q * d <= x < q * d + d
    ensures x / d == q
  {
    FloorBounds(x, d);
    var p := x / d;
    if p < q {
      MulMono(p + 1, q, d);
    } else if q < p {
      MulMono(q + 1, p, d);
    }
  }

  lemma MulMono(x: int, y: int, d: int)
    requires x <= y && 0 <= d
    ensures x * d <= y * d
  {
  }

  lemma Distribute(x: int, y: int, z: int)
    ensures x * (y + z) == x * y + x * z
  {
  }

  lemma FloorMono(x: int, y: int, d: int)
    requires d > 0 && x <= y
    ensures x / d <= y / d
  {
    FloorBounds(x, d);
    FloorBounds(y, d);
    if y / d < x / d {
      MulMono(y / d + 1, x / d, d);
    }
  }

  /** A quotient is at least q exactly when the dividend is at least q*d. */
  lemma FloorAtLeast(x: int, d: int, q: int)
    requires d > 0
    ensures q <= x / d <==> q * d <= x
  {
    FloorBounds(x, d);
    if q <= x / d {
      MulMono(q, x / d, d);
    } else {
      MulMono(x / d + 1, q, d);
    }
  }

  /** Dividing by more gives no more. */
  lemma FloorAntitone(x: int, d: int, e: int)
    requires 0 <= x && 0 < d <= e
    ensures 0 <= x / e <= x / d
  {
    FloorBounds(x, e);
    FloorAtLeast(x, e, 0);
    MulMono(d, e, x / e);
    FloorAtLeast(x, d, x / e);
  }

  /** Whole multiples of the divisor pass through the floor. */
  lemma FloorShift(x: int, d: int, n: int)
    requires d > 0
    ensures (x + n * d) / d == x / d + n
  {
    FloorBounds(x, d);
    FloorUnique(x + n * d, d, x / d + n);
  }

  /** Two floors in a row are one floor by the product. */
  lemma FloorNested(x: int, d: int, e: int)
    requires 0 <= x && 0 < d && 0 < e
    ensures 0 < d * e && x / d / e == x / (d * e)
  {
    var p := x / d;
    var q := p / e;
    FloorBounds(x, d);
    FloorBounds(p, e);
    assert q * (d * e) == q * e * d;
    MulMono(q * e, p, d);
    MulMono(p + 1, q * e + e, d);
    assert (q * e + e) * d == q * (d * e) + d * e;
    FloorUnique(x, d * e, q);
  }

  lemma TruncDivOfNonpositive(x: int, d: int)
    requires x <= 0 && d != 0
    ensures TruncDiv(x, d) == if d > 0 then 0 - Abs(x) / Abs(d) else Abs(x) / Abs(d)
  {
    if x == 0 {
      FloorUnique(0, Abs(d), 0);
    }
  }

  lemma TruncDivMagnitude(x: int, d: int)
    requires d > 0
    ensures Abs(TruncDiv(x, d)) == Abs(x) / d
  {
    FloorAtLeast(Abs(x), d, 0);
  }

  /** A truncated quotient has the dividend's sign or is zero, and misses it by less than the divisor. */
  lemma TruncDivBounds(x: int, d: int)
    requires d > 0
    ensures Abs(TruncDiv(x, d)) * d <= Abs(x) < (Abs(TruncDiv(x, d)) + 1) * d
    ensures (x >= 0 ==> TruncDiv(x, d) >= 0) && (x <= 0 ==> TruncDiv(x, d) <= 0)
  {
    TruncDivMagnitude(x, d);
    FloorAtLeast(Abs(x), d, 0);
    FloorBounds(Abs(x), d);
    if x == 0 {
      FloorUnique(0, d, 0);
    }
  }

  lemma SignedProduct(x: int, y: int)
    ensures x * y == if (x > 0) == (y > 0) then Abs(x) * Abs(y) else 0 - Abs(x) * Abs(y)
  {
  }

  // ----- Truncated division

  lemma TruncNegate(x: int, d: int)
    requires d > 0
    ensures TruncDiv(0 - x, d) == 0 - TruncDiv(x, d)
  {
    if x == 0 {
      FloorUnique(0, d, 0);
    }
  }

  /** Two truncations in a row are one by the product. */
  lemma TruncNested(x: int, d: int, e: int)
    requires 0 < d && 0 < e
    ensures 0 < d * e && TruncDiv(TruncDiv(x, d), e) == TruncDiv(x, d * e)
  {
    FloorNested(Abs(x), d, e);
    FloorAtLeast(Abs(x), d, 0);
    FloorAtLeast(Abs(x) / d, e, 0);
    if Abs(x) / d == 0 {
      FloorUnique(0, e, 0);
    }
  }
}
