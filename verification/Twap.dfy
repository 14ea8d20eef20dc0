/** Time-weighted average prices: the mark and oracle averages of the market maker, and the
    ranges they cannot leave. */
module Twap {
  import opened Numeric
  import opened State
  import opened Curve

  function WeightedAverage(newData: i128, oldData: i128, newWeight: i128, oldWeight: i128): Result<i128> {
    var denominator :- FitI128(newWeight + oldWeight);
    var previous :- FitI128(oldData * oldWeight);
    var latest :- FitI128(newData * newWeight);
    var total :- FitI128(previous + latest);
    DivI(total, denominator)
  }

  /** The weights of the new and of the old data: time since the last update, and what is left of
      the funding period, each at least 1. */
  function Weights(now: i64, last: i64, period: i64): (r: Result<(i128, i128)>)
    ensures r.Ok? ==> 1 <= r.value.0 && 1 <= r.value.1
  {
    var elapsed :- FitI64(now - last);
    var sinceLast: int := Max(1, elapsed);
    var left :- FitI128(period - sinceLast);
    Ok((sinceLast, Max(1, left)))
  }

  // ----- Mark price

  function NewMarkTwap(a: Amm, now: i64, precomputed: Option<u128>): Result<u128> {
    var (sinceLast, fromStart) :- Weights(now, a.lastMarkPriceTwapTs, a.fundingPeriod);
    var current :- match precomputed case Some(price) => Ok(price) case None => MarkPrice(a);
    var newData :- CastI128(current);
    var oldData :- CastI128(a.lastMarkPriceTwap);
    var average :- WeightedAverage(newData, oldData, sinceLast, fromStart);
    CastU128(average)
  }

  function UpdateMarkTwap(a: Amm, now: i64, precomputed: Option<u128>): Result<Amm> {
    var average :- NewMarkTwap(a, now, precomputed);
    Ok(a.(lastMarkPriceTwap := average, lastMarkPriceTwapTs := now))
  }

  lemma MarkTwapShape(a: Amm, now: i64, precomputed: Option<u128>)
    requires UpdateMarkTwap(a, now, precomputed).Ok?
    ensures var a' := UpdateMarkTwap(a, now, precomputed).value;
            a' == a.(lastMarkPriceTwap := a'.lastMarkPriceTwap, lastMarkPriceTwapTs := now)
  {
  }

  // ----- Oracle price

  /** The last recorded oracle price, or the new one when none has been recorded. */
  function AnchorPrice(a: Amm, oraclePrice: i128): i128 {
    if a.lastOraclePrice > 0 then a.lastOraclePrice else oraclePrice
  }

  /** The new price, pulled to within a thousandth of the anchor. */
  function Interpolated(anchor: i128, oraclePrice: i128): Result<i128> {
    var tenth :- DivI(anchor, 1000);
    var upper :- FitI128(anchor + tenth);
    var lower :- FitI128(anchor - tenth);
    Ok(Min(upper, Max(lower, oraclePrice)))
  }

  function NewOracleTwap(a: Amm, now: i64, oraclePrice: i128): Result<i128> {
    var (sinceLast, fromStart) :- Weights(now, a.lastOraclePriceTwapTs, a.fundingPeriod);
    var interpolated :- Interpolated(AnchorPrice(a, oraclePrice), oraclePrice);
    WeightedAverage(interpolated, a.lastOraclePriceTwap, sinceLast, fromStart)
  }

  /** The reading, moved by at most a third of itself away from the average. */
  function CappedOraclePrice(a: Amm, oraclePrice: i128): Result<i128> {
    var spread :- FitI128(oraclePrice - a.lastOraclePriceTwap);
    var third :- DivI(oraclePrice, 3);
    if Abs(spread) > Abs(third) then
      if oraclePrice > a.lastOraclePriceTwap
      then FitI128(a.lastOraclePriceTwap + third)
      else FitI128(a.lastOraclePriceTwap - third)
    else
      Ok(oraclePrice)
  }

  function UpdateOracleTwap(a: Amm, now: i64, oraclePrice: i128): Result<Amm> {
    var capped :- CappedOraclePrice(a, oraclePrice);
    if capped > 0 && oraclePrice > 0 then
      var average :- NewOracleTwap(a, now, capped);
      Ok(a.(lastOraclePrice := capped, lastOraclePriceTwap := average, lastOraclePriceTwapTs := now))
    else
      Ok(a)
  }

  // ----- One update stays between the old average and the new data

  /** A weighted mean of two numbers lies between them, floor included. */
  lemma MeanBetween(x: int, y: int, xWeight: int, yWeight: int)
    requires 0 <= x && 0 <= y && 1 <= xWeight && 1 <= yWeight
    ensures 0 <= y * yWeight + x * xWeight
    ensures Min(x, y) <= (y * yWeight + x * xWeight) / (xWeight + yWeight) <= Max(x, y)
  {
    var lo, hi, d, total := Min(x, y), Max(x, y), xWeight + yWeight, y * yWeight + x * xWeight;
    MulMono(lo, y, yWeight);
    MulMono(lo, x, xWeight);
    MulMono(y, hi, yWeight);
    MulMono(x, hi, xWeight);
    Distribute(lo, xWeight, yWeight);
    Distribute(hi, xWeight, yWeight);
    MulMono(0, lo, d);
    FloorAtLeast(total, d, lo);
    FloorAtLeast(total, d, hi + 1);
    Distribute(hi + 1, xWeight, yWeight);
  }

  lemma AverageBetween(newData: i128, oldData: i128, newWeight: i128, oldWeight: i128)
    requires 0 <= newData && 0 <= oldData && 1 <= newWeight && 1 <= oldWeight
    requires WeightedAverage(newData, oldData, newWeight, oldWeight).Ok?
    ensures Min(newData, oldData)
         <= WeightedAverage(newData, oldData, newWeight, oldWeight).value
         <= Max(newData, oldData)
  {
    MeanBetween(newData, oldData, newWeight, oldWeight);
  }

  /** For a positive average, a positive reading always updates it: the capped price is positive, and
      within a third of the reading of the average. */
  lemma CappedPositive(a: Amm, oraclePrice: i128)
    requires 0 < a.lastOraclePriceTwap && 0 < oraclePrice
    requires CappedOraclePrice(a, oraclePrice).Ok?
    ensures var capped := CappedOraclePrice(a, oraclePrice).value;
            0 < capped && Abs(capped - a.lastOraclePriceTwap) <= oraclePrice / 3
  {
  }

  lemma InterpolatedNear(anchor: i128, oraclePrice: i128)
    requires 0 < anchor && Interpolated(anchor, oraclePrice).Ok?
    ensures 0 < anchor - anchor / 1000 <= Interpolated(anchor, oraclePrice).value <= anchor + anchor / 1000
  {
  }

  /** The new oracle average lies between the old one and a price within a thousandth of the last
      recorded price; both recorded values stay positive. */
  lemma OracleUpdateContained(a: Amm, now: i64, oraclePrice: i128)
    requires 0 < a.lastOraclePriceTwap && 0 < a.lastOraclePrice
    requires UpdateOracleTwap(a, now, oraclePrice).Ok?
    ensures var a' := UpdateOracleTwap(a, now, oraclePrice).value;
            var last, average := a.lastOraclePrice, a.lastOraclePriceTwap;
            && 0 < a'.lastOraclePriceTwap && 0 < a'.lastOraclePrice
            && Min(average, last - last / 1000) <= a'.lastOraclePriceTwap <= Max(average, last + last / 1000)
            && (oraclePrice <= 0 ==> a' == a)
            && (oraclePrice > 0 ==>
                  && a'.lastOraclePriceTwapTs == now
                  && Abs(a'.lastOraclePrice - average) <= oraclePrice / 3)
  {
    if oraclePrice > 0 {
      CappedPositive(a, oraclePrice);
      OracleAverageContained(a, now, CappedOraclePrice(a, oraclePrice).value);
    }
  }

  lemma OracleAverageContained(a: Amm, now: i64, capped: i128)
    requires 0 < a.lastOraclePriceTwap && 0 < a.lastOraclePrice && NewOracleTwap(a, now, capped).Ok?
    ensures var last, average := a.lastOraclePrice, a.lastOraclePriceTwap;
            && 0 < NewOracleTwap(a, now, capped).value
            && Min(average, last - last / 1000) <= NewOracleTwap(a, now, capped).value <= Max(average, last + last / 1000)
  {
    var (sinceLast, fromStart) := Weights(now, a.lastOraclePriceTwapTs, a.fundingPeriod).value;
    InterpolatedNear(a.lastOraclePrice, capped);
    AverageBetween(Interpolated(a.lastOraclePrice, capped).value, a.lastOraclePriceTwap, sinceLast, fromStart);
  }

  // ----- The weights

  /** How long a market's average has stood, and what is left of its period, each at least a second. */
  function Elapsed(now: int, last: int): int {
    Max(1, now - last)
  }

  function Left(now: int, last: int, period: int): int {
    Max(1, period - Elapsed(now, last))
  }

  /** An average is the new price for the time elapsed and the old average for the rest of the period. */
  predicate Weighted(average: int, newData: int, oldData: int, elapsed: int, left: int) {
    average * (elapsed + left) <= newData * elapsed + oldData * left < (average + 1) * (elapsed + left)
  }

  lemma WeightedByTime(newData: i128, oldData: i128, newWeight: i128, oldWeight: i128)
    requires 0 <= newData && 0 <= oldData && 1 <= newWeight && 1 <= oldWeight
    requires WeightedAverage(newData, oldData, newWeight, oldWeight).Ok?
    ensures Weighted(WeightedAverage(newData, oldData, newWeight, oldWeight).value, newData, oldData, newWeight, oldWeight)
  {
    MeanBetween(newData, oldData, newWeight, oldWeight);
    FloorBounds(oldData * oldWeight + newData * newWeight, newWeight + oldWeight);
  }

  /** The mark average after an update weighs the price at the moment of the update by the time since
      the last one. */
  lemma MarkTwapWeighs(a: Amm, now: i64, precomputed: Option<u128>)
    requires UpdateMarkTwap(a, now, precomputed).Ok?
    ensures precomputed.None? ==> MarkPrice(a).Ok?
    ensures var price := if precomputed.Some? then precomputed.value else MarkPrice(a).value;
            Weighted(UpdateMarkTwap(a, now, precomputed).value.lastMarkPriceTwap, price, a.lastMarkPriceTwap,
                     Elapsed(now, a.lastMarkPriceTwapTs), Left(now, a.lastMarkPriceTwapTs, a.fundingPeriod))
  {
    var (sinceLast, fromStart) := Weights(now, a.lastMarkPriceTwapTs, a.fundingPeriod).value;
    var price := if precomputed.Some? then precomputed.value else MarkPrice(a).value;
    WeightedByTime(price, a.lastMarkPriceTwap, sinceLast, fromStart);
  }

  function Clamp(lo: int, x: int, hi: int): int {
    Min(hi, Max(lo, x))
  }

  /** The oracle values after a positive reading: the last price is the reading, or a third of it away
      from the average if it is farther than that; the average weighs that price, held to within a
      thousandth of the one before, by the time since the last update. */
  lemma OracleTwapWeighs(a: Amm, now: i64, oraclePrice: i128)
    requires 0 < a.lastOraclePriceTwap && 0 < a.lastOraclePrice && 0 < oraclePrice
    requires UpdateOracleTwap(a, now, oraclePrice).Ok?
    ensures var a', average, last := UpdateOracleTwap(a, now, oraclePrice).value, a.lastOraclePriceTwap, a.lastOraclePrice;
            && a'.lastOraclePrice
               == (if Abs(oraclePrice - average) <= oraclePrice / 3 then oraclePrice
                   else if oraclePrice > average then average + oraclePrice / 3 else average - oraclePrice / 3)
            && Weighted(a'.lastOraclePriceTwap,
                        Clamp(last - last / 1000, a'.lastOraclePrice, last + last / 1000), average,
                        Elapsed(now, a.lastOraclePriceTwapTs), Left(now, a.lastOraclePriceTwapTs, a.fundingPeriod))
            && a'.lastOraclePriceTwapTs == now
  {
    CappedPositive(a, oraclePrice);
    var capped := CappedOraclePrice(a, oraclePrice).value;
    InterpolatedNear(a.lastOraclePrice, capped);
    var (sinceLast, fromStart) := Weights(now, a.lastOraclePriceTwapTs, a.fundingPeriod).value;
    WeightedByTime(Interpolated(a.lastOraclePrice, capped).value, a.lastOraclePriceTwap, sinceLast, fromStart);
  }

  // ----- Runs

  /** A price read at a time. */
  datatype Reading<T> = Reading(now: i64, price: T)

  /** The mark average after a sequence of mark prices; an update that fails changes nothing. */
  function MarkRun(a: Amm, readings: seq<Reading<u128>>): Amm {
    if readings == [] then a else
      var before := MarkRun(a, readings[..|readings| - 1]);
      var last := readings[|readings| - 1];
      match UpdateMarkTwap(before, last.now, Some(last.price))
      case Ok(after) => after
      case Err(_) => before
  }

  /** The mark average never leaves any range that holds its start and every price fed to it. */
  lemma {:induction false} MarkTwapContained(a: Amm, readings: seq<Reading<u128>>, lo: nat, hi: nat)
    requires lo <= a.lastMarkPriceTwap <= hi
    requires forall r :: r in readings ==> lo <= r.price <= hi
    ensures lo <= MarkRun(a, readings).lastMarkPriceTwap <= hi
  {
    if readings != [] {
      var rest := readings[..|readings| - 1];
      MarkTwapContained(a, rest, lo, hi);
      var before, last := MarkRun(a, rest), readings[|readings| - 1];
      if NewMarkTwap(before, last.now, Some(last.price)).Ok? {
        var (sinceLast, fromStart) := Weights(last.now, before.lastMarkPriceTwapTs, before.fundingPeriod).value;
        AverageBetween(last.price, before.lastMarkPriceTwap, sinceLast, fromStart);
      }
    }
  }

  function OracleRun(a: Amm, readings: seq<Reading<i128>>): Amm {
    if readings == [] then a else
      var before := OracleRun(a, readings[..|readings| - 1]);
      var last := readings[|readings| - 1];
      match UpdateOracleTwap(before, last.now, last.price)
      case Ok(after) => after
      case Err(_) => before
  }

  /** Once positive, the oracle average and the last oracle price stay positive, whatever is read. */
  lemma {:induction false} OracleTwapStaysPositive(a: Amm, readings: seq<Reading<i128>>)
    requires 0 < a.lastOraclePriceTwap && 0 < a.lastOraclePrice
    ensures 0 < OracleRun(a, readings).lastOraclePriceTwap && 0 < OracleRun(a, readings).lastOraclePrice
  {
    if readings != [] {
      var rest := readings[..|readings| - 1];
      OracleTwapStaysPositive(a, rest);
      var before, last := OracleRun(a, rest), readings[|readings| - 1];
      if UpdateOracleTwap(before, last.now, last.price).Ok? {
        OracleUpdateContained(before, last.now, last.price);
      }
    }
  }
}
