/** What the price and the fee promise. */
module PricingProofs {
  import opened Schema
  import opened Pricing

  // ------------------------------------------------------------ both rates

  lemma CancelFactor(d: int, a: int, b: int)
    requires d > 0 && d * a < d * b
    ensures a < b
  {
  }

  lemma RoundDivMono(x: int, y: int, d: int)
    requires d > 0 && x <= y
    ensures RoundDiv(x, d) <= RoundDiv(y, d)
  {
    assert 2 * d * (RoundDiv(y, d) + 1) == 2 * d * RoundDiv(y, d) + 2 * d;
    CancelFactor(2 * d, RoundDiv(x, d), RoundDiv(y, d) + 1);
  }

  lemma RoundDivUnique(x: int, d: int, r: int)
    requires d > 0 && 2 * x - d < 2 * d * r <= 2 * x + d
    ensures RoundDiv(x, d) == r
  {
    var q := RoundDiv(x, d);
    assert 2 * d * (q + 1) == 2 * d * q + 2 * d && 2 * d * (r + 1) == 2 * d * r + 2 * d;
    CancelFactor(2 * d, r, q + 1);
    CancelFactor(2 * d, q, r + 1);
  }

  lemma RoundDivShift(x: int, k: int, d: int)
    requires d > 0
    ensures RoundDiv(x + d * k, d) == RoundDiv(x, d) + k
  {
    assert 2 * d * (RoundDiv(x, d) + k) == 2 * d * RoundDiv(x, d) + 2 * (d * k);
    RoundDivUnique(x + d * k, d, RoundDiv(x, d) + k);
  }

  lemma CeilDivMono(x: int, y: int, d: int)
    requires d > 0 && x <= y
    ensures CeilDiv(x, d) <= CeilDiv(y, d)
  {
    assert d * (CeilDiv(y, d) + 1) == d * CeilDiv(y, d) + d;
    CancelFactor(d, CeilDiv(x, d), CeilDiv(y, d) + 1);
  }

  lemma Scale(rate: int, a: int, b: int)
    requires rate >= 0 && a <= b
    ensures rate * a <= rate * b
  {
  }

  /** A split is linear in the number of full days, with slope 4 * (daily - 24 * hourly). */
  lemma SplitLinear(hourly: int, daily: int, blocks: int, k: int)
    ensures Split(hourly, daily, blocks, k) == blocks * hourly + 4 * k * (daily - 24 * hourly)
  {
    assert (blocks - 96 * k) * hourly == blocks * hourly - 96 * k * hourly;
    assert 4 * k * (daily - 24 * hourly) == 4 * k * daily - 96 * k * hourly;
  }

  /** The two candidates the code compares are enough: no way of dividing the stay into full days and hours is
      cheaper, and one of the two costs exactly the price. */
  lemma BothRatesOptimal(hourly: int, daily: int, blocks: int, k: int)
    requires blocks >= 1 && 0 <= k <= blocks / 96
    ensures BothRates(hourly, daily, blocks) <= RoundDiv(Split(hourly, daily, blocks, k), 4)
    ensures exists j | 0 <= j <= blocks / 96 :: BothRates(hourly, daily, blocks) == RoundDiv(Split(hourly, daily, blocks, j), 4)
  {
    var days, slope := blocks / 96, daily - 24 * hourly;
    SplitLinear(hourly, daily, blocks, 0);
    SplitLinear(hourly, daily, blocks, k);
    SplitLinear(hourly, daily, blocks, days);
    if slope >= 0 { assert k * slope >= 0; } else { assert k * slope >= days * slope; }
    var best := Min(Split(hourly, daily, blocks, 0), Split(hourly, daily, blocks, days));
    RoundDivMono(best, Split(hourly, daily, blocks, k), 4);
    var j := if Split(hourly, daily, blocks, 0) < Split(hourly, daily, blocks, days) then 0 else days;
    assert BothRates(hourly, daily, blocks) == RoundDiv(Split(hourly, daily, blocks, j), 4);
  }

  /** Closed form: every full day at the cheaper of the two ways to pay for it, the rest by the hour. */
  lemma BothRatesClosedForm(hourly: int, daily: int, blocks: int)
    requires blocks >= 1
    ensures BothRates(hourly, daily, blocks)
            == blocks / 96 * Min(daily, 24 * hourly) + RoundDiv(blocks % 96 * hourly, 4)
  {
    var days := blocks / 96;
    SplitLinear(hourly, daily, blocks, 0);
    SplitLinear(hourly, daily, blocks, days);
    var best := Min(Split(hourly, daily, blocks, 0), Split(hourly, daily, blocks, days));
    var cheap := Min(daily, 24 * hourly);
    if daily < 24 * hourly { assert days * (daily - 24 * hourly) <= 0; } else { assert days * (daily - 24 * hourly) >= 0; }
    assert blocks * hourly == days * (96 * hourly) + blocks % 96 * hourly by {
      assert blocks == 96 * days + blocks % 96;
      assert 96 * days * hourly == days * (96 * hourly);
    }
    assert best == blocks % 96 * hourly + 4 * (days * cheap);
    RoundDivShift(blocks % 96 * hourly, days * cheap, 4);
  }

  /** Twenty-four hours more cost exactly one cheaper day more. */
  lemma OneDayMore(hourly: int, daily: int, blocks: int)
    requires blocks >= 1
    ensures BothRates(hourly, daily, blocks + 96) == BothRates(hourly, daily, blocks) + Min(daily, 24 * hourly)
  {
    hide BothRates, Min, RoundDiv;
    BothRatesClosedForm(hourly, daily, blocks);
    BothRatesClosedForm(hourly, daily, blocks + 96);
    assert (blocks + 96) / 96 == blocks / 96 + 1 && (blocks + 96) % 96 == blocks % 96;
    var cheap := Min(daily, 24 * hourly);
    assert (blocks / 96 + 1) * cheap == blocks / 96 * cheap + cheap;
  }

  const DAY_MS: Time := 24 * 60 * 60 * 1000

  lemma DayOnTheClock(start: Time, end: Time)
    requires start < end
    ensures Minutes(start, end + DAY_MS) == Minutes(start, end) + 1440
    ensures Minutes(start, end) >= 1 <==> end - start >= 30000
    ensures Minutes(start, end) >= 0
  {
    RoundDivShift(end - start, 1440, 60000);
  }

  lemma DayOfBlocks(m: int)
    requires m >= 0
    ensures m >= 1 ==> Blocks(m + 1440) == Blocks(m) + 96
    ensures m == 0 ==> Blocks(m) == 1 && Blocks(m + 1440) == 96
  {
  }

  /** On clock times: the law holds exactly when the stay is at least half a minute long, or a single block is
      free. A stay shorter than that is billed one block, and that block vanishes inside the added day. */
  lemma OneDayMoreOnTheClock(hourly: int, daily: int, start: Time, end: Time, flat: Option<int>)
    requires start < end
    ensures AmountCents(Some(hourly), Some(daily), start, end + DAY_MS, flat).value
              == AmountCents(Some(hourly), Some(daily), start, end, flat).value + Min(daily, 24 * hourly)
            <==> (end - start >= 30000 || RoundDiv(hourly, 4) == 0)
  {
    hide RoundDiv, CeilDiv, Minutes, Blocks, BothRates, Split;
    var m := Minutes(start, end);
    DayOnTheClock(start, end);
    DayOfBlocks(m);
    if m >= 1 {
      assert Blocks(m) >= 1 by { BlocksPositive(m); }
      OneDayMore(hourly, daily, Blocks(m));
    } else {
      BothRatesClosedForm(hourly, daily, 1);
      BothRatesClosedForm(hourly, daily, 96);
      RoundDivUnique(0, 4, 0);
    }
  }

  lemma BlocksPositive(m: int)
    ensures Blocks(m) >= 1
  {
  }

  // ------------------------------------------------- is longer never cheaper?

  /** What a manager can check when setting the two rates: 23 hours and 45 minutes by the hour cost no more than
      a day. */
  predicate DayIsDearEnough(hourly: int, daily: int) { hourly >= 0 && RoundDiv(95 * hourly, 4) <= daily }

  /** A stay of `a` blocks costs no more than a longer one of `b`. */
  lemma LongerCostsMore(hourly: int, daily: int, a: int, b: int)
    requires DayIsDearEnough(hourly, daily) && 1 <= a <= b
    ensures BothRates(hourly, daily, a) <= BothRates(hourly, daily, b)
  {
    hide BothRates, RoundDiv, Split;
    BothRatesClosedForm(hourly, daily, a);
    BothRatesClosedForm(hourly, daily, b);
    var cheap := Min(daily, 24 * hourly);
    var p, q := a / 96, b / 96;
    var x, y := RoundDiv(a % 96 * hourly, 4), RoundDiv(b % 96 * hourly, 4);
    PartOfADay(hourly, a % 96);
    PartOfADay(hourly, b % 96);
    if p == q {
      Scale(hourly, a % 96, b % 96);
      RoundDivMono(a % 96 * hourly, b % 96 * hourly, 4);
    } else {
      OneDayOnTop(p, q, cheap, x, y);
    }
  }

  lemma OneDayOnTop(p: int, q: int, day: int, x: int, y: int)
    requires p < q && 0 <= x <= day && 0 <= y
    ensures p * day + x <= q * day + y
  {
    assert (p + 1) * day == p * day + day;
    Scale(day, p + 1, q);
  }

  lemma PartOfADay(hourly: int, blocks: int)
    requires hourly >= 0 && 0 <= blocks <= 95
    ensures 0 <= RoundDiv(blocks * hourly, 4) <= RoundDiv(95 * hourly, 4) <= 24 * hourly
  {
    hide RoundDiv;
    Scale(hourly, 0, blocks);
    Scale(hourly, blocks, 95);
    RoundDivMono(0, blocks * hourly, 4);
    RoundDivMono(blocks * hourly, 95 * hourly, 4);
    RoundDivMono(95 * hourly, 96 * hourly, 4);
    RoundDivUnique(0, 4, 0);
    RoundDivUnique(96 * hourly, 4, 24 * hourly);
  }

  /** The last block of a day can cost more than the whole day, and a negative rate makes every block cheaper. */
  lemma LongerCostsLess(hourly: int, daily: int)
    requires !DayIsDearEnough(hourly, daily)
    ensures BothRates(hourly, daily, 95) > BothRates(hourly, daily, 96) || BothRates(hourly, daily, 1) > BothRates(hourly, daily, 95)
  {
    hide BothRates;
    BothRatesClosedForm(hourly, daily, 1);
    BothRatesClosedForm(hourly, daily, 95);
    BothRatesClosedForm(hourly, daily, 96);
    RoundDivUnique(0, 4, 0);
  }

  ghost predicate NeverCheaper(hourly: int, daily: int) {
    forall start: Time, end1: Time, end2: Time, flat | start < end1 <= end2 ::
      AmountCents(Some(hourly), Some(daily), start, end1, flat).value
      <= AmountCents(Some(hourly), Some(daily), start, end2, flat).value
  }

  /** With both rates a longer stay never costs less exactly when 23 hours and 45 minutes by the hour, rounded,
      cost no more than a day. */
  lemma LongerNeverCheaperIff(hourly: int, daily: int)
    ensures NeverCheaper(hourly, daily) <==> DayIsDearEnough(hourly, daily)
  {
    hide BothRates, RoundDiv, CeilDiv;
    if DayIsDearEnough(hourly, daily) {
      forall start: Time, end1: Time, end2: Time, flat | start < end1 <= end2
        ensures AmountCents(Some(hourly), Some(daily), start, end1, flat).value
                <= AmountCents(Some(hourly), Some(daily), start, end2, flat).value
      {
        BlocksOnTheClock(start, end1, end2);
        LongerCostsMore(hourly, daily, Blocks(Minutes(start, end1)), Blocks(Minutes(start, end2)));
      }
    } else {
      LongerCostsLess(hourly, daily);
      forall k | k in {1, 95, 96} ensures PriceOfBlocks(hourly, daily, k) == BothRates(hourly, daily, k) {
        WholeBlocks(k);
      }
      assert PriceOfBlocks(hourly, daily, 95) > PriceOfBlocks(hourly, daily, 96)
             || PriceOfBlocks(hourly, daily, 1) > PriceOfBlocks(hourly, daily, 95);
    }
  }

  const BLOCK_MS: Time := 15 * 60 * 1000

  function PriceOfBlocks(hourly: int, daily: int, blocks: int): int {
    AmountCents(Some(hourly), Some(daily), 0, blocks * BLOCK_MS, None).value
  }

  lemma WholeBlocks(blocks: int)
    requires blocks >= 1
    ensures Blocks(Minutes(0, blocks * BLOCK_MS)) == blocks
  {
    RoundDivUnique(blocks * BLOCK_MS, 60000, 15 * blocks);
  }

  lemma BlocksOnTheClock(start: Time, end1: Time, end2: Time)
    requires start < end1 <= end2
    ensures Minutes(start, end1) <= Minutes(start, end2)
    ensures 1 <= Blocks(Minutes(start, end1)) <= Blocks(Minutes(start, end2))
  {
    hide RoundDiv, CeilDiv;
    RoundDivMono(end1 - start, end2 - start, 60000);
    CeilDivMono(Minutes(start, end1), Minutes(start, end2), 15);
  }

  /** An instance: at one dollar an hour and ten a day, 23 hours cost 23 dollars and 24 cost ten. */
  lemma LongerCanBeCheaper()
    ensures BothRates(100, 1000, 92) == 2300 && BothRates(100, 1000, 96) == 1000
    ensures !NeverCheaper(100, 1000)
  {
    BothRatesClosedForm(100, 1000, 92);
    BothRatesClosedForm(100, 1000, 96);
    assert RoundDiv(9200, 4) == 2300 && RoundDiv(0, 4) == 0;
    LongerNeverCheaperIff(100, 1000);
  }

  // -------------------------------------------------------------- one rate

  /** Hourly rate only: quarter-hour billing never undercuts the pro-rata price of the rounded minutes by half a
      cent, nor exceeds the pro-rata price of fourteen minutes more by over half a cent. */
  lemma HourlyNearProRata(hourly: int, start: Time, end: Time, flat: Option<int>)
    requires hourly >= 0 && end - start >= 30000
    ensures var minutes := Minutes(start, end);
            var price := AmountCents(Some(hourly), None, start, end, flat).value;
            hourly * minutes - 30 < 60 * price <= hourly * (minutes + 14) + 30
  {
    hide RoundDiv, CeilDiv;
    var minutes := Minutes(start, end);
    var b := Blocks(minutes);
    var hb := hourly * b;
    assert minutes <= 15 * b <= minutes + 14;
    Scale(hourly, minutes, 15 * b);
    Scale(hourly, 15 * b, minutes + 14);
    assert hourly * (15 * b) == 15 * hb;
    assert 2 * hb - 4 < 8 * RoundDiv(hb, 4) <= 2 * hb + 4;
  }

  /** The hourly price goes by started quarter-hours of the rounded minutes, at least one: it is rate times quarters,
      in quarter-cents, rounded once. */
  lemma HourlyByTheQuarter(hourly: int, start: Time, end: Time, flat: Option<int>, quarters: int)
    requires start < end && quarters >= 1
    requires (15 * (quarters - 1)) * 60000 + 30000 <= end - start < (15 * quarters) * 60000 + 30000
             || (quarters == 1 && end - start < 30000)
    ensures var price := AmountCents(Some(hourly), None, start, end, flat);
            price.Some? && hourly * quarters - 2 < 4 * price.value <= hourly * quarters + 2
  {
    hide RoundDiv;
    var minutes := Minutes(start, end);
    assert 15 * (quarters - 1) < minutes <= 15 * quarters || (quarters == 1 && minutes == 0);
    assert Blocks(minutes) == quarters;
    assert 2 * (hourly * quarters) - 4 < 8 * RoundDiv(hourly * quarters, 4) <= 2 * (hourly * quarters) + 4;
  }

  /** With both rates the same quarter-hours are what counts. */
  lemma BothRatesByTheQuarter(hourly: int, daily: int, start: Time, end: Time, flat: Option<int>, quarters: int)
    requires start < end && quarters >= 1
    requires (15 * (quarters - 1)) * 60000 + 30000 <= end - start < (15 * quarters) * 60000 + 30000
             || (quarters == 1 && end - start < 30000)
    ensures AmountCents(Some(hourly), Some(daily), start, end, flat)
            == Some(quarters / 96 * Min(daily, 24 * hourly) + RoundDiv(quarters % 96 * hourly, 4))
  {
    hide RoundDiv;
    var minutes := Minutes(start, end);
    assert 15 * (quarters - 1) < minutes <= 15 * quarters || (quarters == 1 && minutes == 0);
    assert Blocks(minutes) == quarters;
    BothRatesClosedForm(hourly, daily, quarters);
  }

  /** Without rates the flat price of the space is the price, whatever the stay; without one there is no price. */
  lemma FlatPriceStands(start: Time, end: Time, flat: Option<int>)
    ensures AmountCents(None, None, start, end, flat) == flat
  {
  }

  /** Daily rate only: the least whole number of days, at least one, that holds the rounded minutes. */
  lemma DailyCoversTheStay(daily: int, start: Time, end: Time, flat: Option<int>)
    requires start < end
    ensures exists days ::
              && AmountCents(None, Some(daily), start, end, flat) == Some(daily * days)
              && days >= 1 && Minutes(start, end) <= 1440 * days
              && (days > 1 ==> Minutes(start, end) > 1440 * (days - 1))
  {
    var days := Max(1, CeilDiv(Minutes(start, end), 1440));
    assert AmountCents(None, Some(daily), start, end, flat) == Some(daily * days);
  }

  lemma OneRateByMinutes(rate: int, m1: int, m2: int)
    requires rate >= 0 && m1 <= m2
    ensures HourlyOnly(rate, m1) <= HourlyOnly(rate, m2) && DailyOnly(rate, m1) <= DailyOnly(rate, m2)
  {
    hide RoundDiv, CeilDiv;
    CeilDivMono(m1, m2, 15);
    CeilDivMono(m1, m2, 1440);
    Scale(rate, Blocks(m1), Blocks(m2));
    RoundDivMono(rate * Blocks(m1), rate * Blocks(m2), 4);
    Scale(rate, Max(1, CeilDiv(m1, 1440)), Max(1, CeilDiv(m2, 1440)));
  }

  /** With a single rate a longer stay never costs less. */
  lemma SingleRateMonotone(rate: int, start: Time, end1: Time, end2: Time, flat: Option<int>)
    requires rate >= 0 && start < end1 <= end2
    ensures AmountCents(Some(rate), None, start, end1, flat).value <= AmountCents(Some(rate), None, start, end2, flat).value
    ensures AmountCents(None, Some(rate), start, end1, flat).value <= AmountCents(None, Some(rate), start, end2, flat).value
  {
    hide HourlyOnly, DailyOnly;
    BlocksOnTheClock(start, end1, end2);
    OneRateByMinutes(rate, Minutes(start, end1), Minutes(start, end2));
  }

  /** An hourly price is positive exactly when rate times blocks reaches half a cent; from two cents an hour it
      always is, and at one cent a single block is free. */
  lemma HourlyPositive(hourly: int, minutes: int)
    requires hourly >= 0
    ensures HourlyOnly(hourly, minutes) >= 1 <==> hourly * Blocks(minutes) >= 2
    ensures hourly >= 2 ==> HourlyOnly(hourly, minutes) >= 1
    ensures hourly == 1 && minutes <= 15 ==> HourlyOnly(hourly, minutes) == 0
  {
    var b := Blocks(minutes);
    if hourly >= 2 { assert hourly * b >= 2 * b; }
  }

  // ------------------------------------------------------------------ fees

  lemma FeeIsASplit(amount: int)
    ensures CalculateFeeSplit(amount).Some? <==> amount > 0
    ensures amount > 0 ==>
              var s := CalculateFeeSplit(amount).value;
              && s.platformFeeCents + s.managerAmountCents == amount
              && 0 <= s.platformFeeCents <= amount && 0 <= s.managerAmountCents
              && -50 < 100 * s.platformFeeCents - FEE_PERCENT * amount <= 50
  {
  }

  function SumAmounts(xs: seq<int>): int { if xs == [] then 0 else xs[0] + SumAmounts(xs[1..]) }

  function SumFees(xs: seq<int>): int
    requires forall i | 0 <= i < |xs| :: xs[i] > 0
  {
    if xs == [] then 0 else CalculateFeeSplit(xs[0]).value.platformFeeCents + SumFees(xs[1..])
  }

  /** Over any list of bookings the rounded fees stay within half a cent a booking of five per cent. */
  lemma {:induction false} FeesStayNearFivePercent(xs: seq<int>)
    requires forall i | 0 <= i < |xs| :: xs[i] > 0
    ensures -50 * |xs| <= 100 * SumFees(xs) - 5 * SumAmounts(xs) <= 50 * |xs|
  {
    if xs != [] {
      FeeIsASplit(xs[0]);
      FeesStayNearFivePercent(xs[1..]);
    }
  }
}
