/** When a funding update can happen: on the period's own clock, once per window. */
module Schedule {
  import opened Numeric
  import opened State
  import opened Funding
  import opened FundingRates

  /** The time at which the next update is allowed: the next multiple of the period or, if the last update
      came more than a third of the period late, the one after it. A period of at most one second has
      no multiples to keep to. */
  function NextTime(last: int, period: int): int {
    if period <= 1 then last + period
    else (last / period + (if last % period > period / 3 then 2 else 1)) * period
  }

  /** The wait ends exactly then. */
  lemma WaitEndsOnTheHour(last: i64, period: i64)
    requires NextUpdateWait(last, period).Ok?
    ensures last + NextUpdateWait(last, period).value == NextTime(last, period)
  {
    if 1 < period {
      WaitEndsOnAMultiple(last, period);
    }
  }

  lemma WaitEndsOnAMultiple(last: i64, period: i64)
    requires 1 < period && NextUpdateWait(last, period).Ok?
    ensures last + NextUpdateWait(last, period).value == NextTime(last, period)
  {
    var window, delay := last / period, last % period;
    assert last == window * period + delay;
    assert (window + 1) * period == window * period + period;
    assert (window + 2) * period == window * period + period * 2;
  }

  /** The next permitted time is a multiple of the period, in a later window than the last update,
      and no closer to it than the period less a third. */
  lemma NextUpdateOnTheHour(last: i64, period: i64)
    requires 1 < period
    ensures var next := NextTime(last, period);
            && next % period == 0
            && next / period > last / period
            && next - last >= period - period / 3
  {
    var window, delay := last / period, last % period;
    assert last == window * period + delay;
    var skipped := if delay > period / 3 then 2 else 1;
    FloorUnique(NextTime(last, period), period, window + skipped);
  }

  /** An update that is not blocked happens at that time and after it, and not before; a blocked one
      does not happen. One that does not happen changes nothing. */
  lemma UpdatesFromTheHour(m: Market, oraclePrice: i128, blocked: bool, now: i64)
    requires UpdateFundingRate(m, oraclePrice, blocked, now).Ok?
    ensures var m' := UpdateFundingRate(m, oraclePrice, blocked, now).value;
            var next := NextTime(m.amm.lastFundingRateTs, m.amm.fundingPeriod);
            if !blocked && next <= now then
              ApplyFunding(m, oraclePrice, now) == Ok(m') && m'.amm.lastFundingRateTs == now
            else
              m' == m
  {
    WaitEndsOnTheHour(m.amm.lastFundingRateTs, m.amm.fundingPeriod);
    if !blocked && UpdateDue(m.amm.lastFundingRateTs, m.amm.fundingPeriod, now) {
      ApplyFundingShape(m, oraclePrice, now);
    }
  }

  /** A call that updates funding records its time; every other successful call leaves the time of the
      last update. The period never changes. */
  lemma UpdatesRecordTime(m: Market, oraclePrice: i128, blocked: bool, now: i64)
    requires UpdateFundingRate(m, oraclePrice, blocked, now).Ok?
    ensures var a' := UpdateFundingRate(m, oraclePrice, blocked, now).value.amm;
            && a'.fundingPeriod == m.amm.fundingPeriod
            && a'.lastFundingRateTs ==
                 if !blocked && UpdateDue(m.amm.lastFundingRateTs, m.amm.fundingPeriod, now) then now
                 else m.amm.lastFundingRateTs
  {
    if UpdateFundingRate(m, oraclePrice, blocked, now).value != m {
      ApplyFundingShape(m, oraclePrice, now);
    } else if !blocked && UpdateDue(m.amm.lastFundingRateTs, m.amm.fundingPeriod, now) {
      ApplyFundingShape(m, oraclePrice, now);
    }
  }

  // ----- One update

  /** The funding clock of a market between two of its states: still, or moved on to a later window,
      by at least the period less a third. */
  predicate OnSchedule(before: Amm, after: Amm)
    requires 0 < before.fundingPeriod
  {
    var period, last, next := before.fundingPeriod, before.lastFundingRateTs, after.lastFundingRateTs;
    && after.fundingPeriod == period
    && (next == last || (next / period > last / period && next - last >= period - period / 3))
  }

  /** Once an update is due, its time is in a later window, far enough away. */
  lemma DueIsLater(last: i64, period: i64, now: i64)
    requires 1 < period && UpdateDue(last, period, now)
    ensures now / period > last / period && now - last >= period - period / 3
  {
    WaitEndsOnTheHour(last, period);
    NextUpdateOnTheHour(last, period);
    FloorMono(NextTime(last, period), now, period);
  }

  lemma UpdateOnSchedule(m: Market, oraclePrice: i128, blocked: bool, now: i64)
    requires 1 < m.amm.fundingPeriod && UpdateFundingRate(m, oraclePrice, blocked, now).Ok?
    ensures OnSchedule(m.amm, UpdateFundingRate(m, oraclePrice, blocked, now).value.amm)
  {
    UpdatesRecordTime(m, oraclePrice, blocked, now);
    if UpdateDue(m.amm.lastFundingRateTs, m.amm.fundingPeriod, now) {
      DueIsLater(m.amm.lastFundingRateTs, m.amm.fundingPeriod, now);
    }
  }
}
