/** Prices and fees. Every rate is a whole number of cents and every billed duration a whole number of
    quarter-hours, so amounts are computed exactly in quarter-cents and rounded once, half up. */
module Pricing {
  import opened Schema

  const FEE_PERCENT := 5

  /** `Math.round(x / d)`: half up, towards plus infinity. */
  function RoundDiv(x: int, d: int): (r: int)
    requires d > 0
    ensures 2 * x - d < 2 * d * r <= 2 * x + d
  {
    (2 * x + d) / (2 * d)
  }

  function CeilDiv(x: int, d: int): (r: int)
    requires d > 0
    ensures x <= d * r < x + d
  {
    (x + d - 1) / d
  }

  function Max(a: int, b: int): int { if a < b then b else a }
  function Min(a: int, b: int): int { if a < b then a else b }

  function Minutes(start: Time, end: Time): int { RoundDiv(end - start, 60000) }

  function Blocks(minutes: int): int { Max(1, CeilDiv(minutes, 15)) }

  function DailyOnly(daily: int, minutes: int): int { daily * Max(1, CeilDiv(minutes, 1440)) }

  function HourlyOnly(hourly: int, minutes: int): int { RoundDiv(hourly * Blocks(minutes), 4) }

  /** In quarter-cents: `k` full days at the daily rate, the rest by the hour. */
  function Split(hourly: int, daily: int, blocks: int, k: int): int { 4 * k * daily + (blocks - 96 * k) * hourly }

  function BothRates(hourly: int, daily: int, blocks: int): int {
    RoundDiv(Min(Split(hourly, daily, blocks, 0), Split(hourly, daily, blocks, blocks / 96)), 4)
  }

  /** None is the "price has not been configured" error. */
  function AmountCents(hourly: Option<int>, daily: Option<int>, start: Time, end: Time, flat: Option<int>): Option<int> {
    if hourly.None? && daily.None? then flat
    else
      var minutes := Minutes(start, end);
      if hourly.None? then Some(DailyOnly(daily.value, minutes))
      else if daily.None? then Some(HourlyOnly(hourly.value, minutes))
      else Some(BothRates(hourly.value, daily.value, Blocks(minutes)))
  }

  datatype FeeSplit = FeeSplit(platformFeeCents: int, managerAmountCents: int)

  /** None is the "must be a positive integer" error. */
  function CalculateFeeSplit(amount: int): Option<FeeSplit> {
    if amount <= 0 then None
    else
      var fee := RoundDiv(amount * FEE_PERCENT, 100);
      Some(FeeSplit(fee, amount - fee))
  }
}
