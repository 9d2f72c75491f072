/** The arithmetic of `POST /api/bookings` and of per-minute completion in `PUT /api/bookings/:id`.
    Instants and durations are integer milliseconds; money is integer cents. JavaScript computes
    with doubles; here every quantity is exact (a rational where the source divides), and
    `Math.round(x)` is `floor(x + 1/2)`. */
module Pricing {
  import opened Common

  datatype Mode = Fixed | PerMinute

  /** The pricing columns of an `expert_profiles` row. */
  datatype ExpertRates = ExpertRates(
    ratePerMinuteCents: int,
    fixed15Cents: int,
    fixed30Cents: int,
    fixed60Cents: int)

  const MsPerMinute: int := 60000
  const MsPerHour: int := 3600000
  /** Bookings that start less than this far ahead pay the rush fee. */
  const RushWindowMs: int := 24 * MsPerHour
  /** Per-minute bookings are pre-authorised for at least this many minutes. */
  const MinBilledMinutes: int := 10
  /** The commission written on every new booking. */
  const DefaultCommissionPct: int := 20

  /** `Math.round(n / d)` for a positive divisor: the integer nearest to n/d, halves rounded up. */
  function RoundHalfUp(n: int, d: int): (r: int)
    requires d > 0
    ensures d * (2 * r - 1) <= 2 * n < d * (2 * r + 1)
  {
    var q := (2 * n + d) / (2 * d);
    assert 2 * d * q <= 2 * n + d < 2 * d * q + 2 * d;
    q
  }

  /** `Math.round(n / d)` for any non-zero divisor. */
  function RoundQuotient(n: int, d: int): int
    requires d != 0
  {
    if d > 0 then RoundHalfUp(n, d) else RoundHalfUp(-n, -d)
  }

  /** The sign of a product with a positive factor is the sign of the other factor. */
  lemma PositiveFactor(d: int, m: int)
    requires d > 0
    ensures (m > 0 ==> d * m > 0) && (m < 0 ==> d * m < 0) && (m == 0 ==> d * m == 0)
  {
  }

  lemma RoundHalfUpExact(x: int, d: int)
    requires d > 0
    ensures RoundHalfUp(x * d, d) == x
  {
    var k := RoundHalfUp(x * d, d) - x;
    assert d * (2 * k - 1) <= 0 < d * (2 * k + 1);
    PositiveFactor(d, 2 * k - 1);
    PositiveFactor(d, 2 * k + 1);
  }

  lemma RoundHalfUpMonotone(n1: int, n2: int, d: int)
    requires d > 0 && n1 <= n2
    ensures RoundHalfUp(n1, d) <= RoundHalfUp(n2, d)
  {
    var k := RoundHalfUp(n1, d) - RoundHalfUp(n2, d);
    assert d * (2 * k - 2) < 0;
    PositiveFactor(d, 2 * k - 2);
  }

  // ---- creation-time price -----------------------------------------------------------

  /** The fixed-mode tier for a requested duration: up to 15 minutes, up to 30, anything longer. */
  function FixedTierCents(rates: ExpertRates, durationMs: int): int {
    if durationMs <= 15 * MsPerMinute then rates.fixed15Cents
    else if durationMs <= 30 * MsPerMinute then rates.fixed30Cents
    else rates.fixed60Cents
  }

  /** The pre-rush price in units of 1/60000 cent, so that fractional minutes stay exact:
      fixed mode is the tier, per-minute mode is `max(10, minutes) * rate`. */
  function BaseUnits(mode: Mode, rates: ExpertRates, durationMs: int): int {
    match mode
    case Fixed => FixedTierCents(rates, durationMs) * MsPerMinute
    case PerMinute => Max(MinBilledMinutes * MsPerMinute, durationMs) * rates.ratePerMinuteCents
  }

  /** `(start - now) / 3600000 < 24`, which includes starts in the past. */
  predicate IsRush(startMs: int, nowMs: int) {
    startMs - nowMs < RushWindowMs
  }

  /** `Math.round(price * 1.1)` for a price of `units`/60000 cents. */
  function RushedCents(units: int): int {
    RoundHalfUp(11 * units, 10 * MsPerMinute)
  }

  /** The amount the source computes, in 1/60000-cent units: after the rush fee it is a whole
      number of cents; without it, a per-minute booking of a non-whole number of minutes
      leaves a fractional number of cents. */
  function AmountUnitsAsWritten(mode: Mode, rates: ExpertRates, startMs: int, endMs: int, nowMs: int): int {
    var units := BaseUnits(mode, rates, endMs - startMs);
    if IsRush(startMs, nowMs) then RushedCents(units) * MsPerMinute else units
  }

  /** The booking price in whole cents: as the source on every input where its amount is a whole
      number of cents, and rounded to the nearest cent where it is not. */
  function PriceCents(mode: Mode, rates: ExpertRates, startMs: int, endMs: int, nowMs: int): int {
    var units := BaseUnits(mode, rates, endMs - startMs);
    if IsRush(startMs, nowMs) then RushedCents(units) else RoundHalfUp(units, MsPerMinute)
  }

  /** `Math.round(price * (1 - pct / 100))`. */
  function ExpertNetCents(priceCents: int, commissionPct: int): int {
    RoundHalfUp(priceCents * (100 - commissionPct), 100)
  }

  /** The money fields of a new booking. */
  datatype Quote = Quote(priceCentsTotal: int, commissionPct: int, expertNetCents: int)

  function QuoteFor(mode: Mode, rates: ExpertRates, startMs: int, endMs: int, nowMs: int): Quote {
    var price := PriceCents(mode, rates, startMs, endMs, nowMs);
    Quote(price, DefaultCommissionPct, ExpertNetCents(price, DefaultCommissionPct))
  }

  /** The POST handler's computation, step by step on one local as the source does it. */
  method ComputeQuote(mode: Mode, rates: ExpertRates, startMs: int, endMs: int, nowMs: int)
    returns (q: Quote)
    ensures q == QuoteFor(mode, rates, startMs, endMs, nowMs)
    ensures q.commissionPct == 20
    ensures (rates.fixed15Cents >= 0 && rates.fixed30Cents >= 0 && rates.fixed60Cents >= 0 &&
             rates.ratePerMinuteCents >= 0) ==> 0 <= q.expertNetCents <= q.priceCentsTotal
  {
    var durationMs := endMs - startMs;
    var units: int;
    if mode == Fixed {
      if durationMs <= 15 * MsPerMinute {
        units := rates.fixed15Cents * MsPerMinute;
      } else if durationMs <= 30 * MsPerMinute {
        units := rates.fixed30Cents * MsPerMinute;
      } else {
        units := rates.fixed60Cents * MsPerMinute;
      }
    } else {
      var minMs := Max(MinBilledMinutes * MsPerMinute, durationMs);
      units := minMs * rates.ratePerMinuteCents;
    }
    var price: int;
    if startMs - nowMs < RushWindowMs {
      price := RushedCents(units);
    } else {
      price := RoundHalfUp(units, MsPerMinute);
    }
    var commissionPct := DefaultCommissionPct;
    var net := ExpertNetCents(price, commissionPct);
    q := Quote(price, commissionPct, net);
    if rates.fixed15Cents >= 0 && rates.fixed30Cents >= 0 && rates.fixed60Cents >= 0 &&
       rates.ratePerMinuteCents >= 0 {
      PriceNonNegative(mode, rates, startMs, endMs, nowMs);
      NetWithinPrice(price, commissionPct);
    }
  }

  // ---- properties of the creation-time price ----------------------------------------

  /** Fixed mode never rejects a duration: every duration, including ones over an hour,
      zero and negative ones, gets one of the three tiers. */
  lemma FixedTierIsATier(rates: ExpertRates, durationMs: int)
    ensures var p := FixedTierCents(rates, durationMs);
            (durationMs <= 15 * MsPerMinute ==> p == rates.fixed15Cents) &&
            (15 * MsPerMinute < durationMs <= 30 * MsPerMinute ==> p == rates.fixed30Cents) &&
            (durationMs > 30 * MsPerMinute ==> p == rates.fixed60Cents)
  {
  }

  /** With tier prices that grow with the tier, a longer fixed booking never costs less. */
  lemma FixedTierMonotone(rates: ExpertRates, d1: int, d2: int)
    requires rates.fixed15Cents <= rates.fixed30Cents <= rates.fixed60Cents
    requires d1 <= d2
    ensures FixedTierCents(rates, d1) <= FixedTierCents(rates, d2)
  {
  }

  /** Prices built from non-negative rates are non-negative. */
  lemma PriceNonNegative(mode: Mode, rates: ExpertRates, startMs: int, endMs: int, nowMs: int)
    requires rates.fixed15Cents >= 0 && rates.fixed30Cents >= 0 && rates.fixed60Cents >= 0
    requires rates.ratePerMinuteCents >= 0
    ensures PriceCents(mode, rates, startMs, endMs, nowMs) >= 0
  {
    var units := BaseUnits(mode, rates, endMs - startMs);
    assert units >= 0;
    RoundHalfUpMonotone(0, 11 * units, 10 * MsPerMinute);
    RoundHalfUpMonotone(0, units, MsPerMinute);
  }

  /** Without the rush fee, a fixed booking costs exactly its tier. */
  lemma FixedPriceIsTier(rates: ExpertRates, startMs: int, endMs: int, nowMs: int)
    requires !IsRush(startMs, nowMs)
    ensures PriceCents(Fixed, rates, startMs, endMs, nowMs) == FixedTierCents(rates, endMs - startMs)
  {
    RoundHalfUpExact(FixedTierCents(rates, endMs - startMs), MsPerMinute);
  }

  /** The rush fee on a whole-cent price p is `(11p + 5) / 10`, i.e. `Math.round(p * 1.1)`. */
  lemma {:induction false} RushedWholeCents(p: int)
    ensures RushedCents(p * MsPerMinute) == (11 * p + 5) / 10
  {
    var r := RushedCents(p * MsPerMinute);
    var q := (11 * p + 5) / 10;
    assert 10 * q <= 11 * p + 5 < 10 * q + 10;
    assert 600000 * (2 * r - 1) <= 2 * (11 * p * 60000) < 600000 * (2 * r + 1);
    assert 10 * (2 * r - 1) <= 22 * p < 10 * (2 * r + 1);
  }

  /** The rush fee never lowers a non-negative price. */
  lemma RushNeverLowers(p: int)
    requires p >= 0
    ensures RushedCents(p * MsPerMinute) >= p
  {
    RushedWholeCents(p);
  }

  /** A per-minute booking is charged for at least 10 minutes, rush fee or not. */
  lemma PerMinuteFloor(rates: ExpertRates, startMs: int, endMs: int, nowMs: int)
    requires rates.ratePerMinuteCents >= 0
    ensures PriceCents(PerMinute, rates, startMs, endMs, nowMs) >= MinBilledMinutes * rates.ratePerMinuteCents
  {
    var rate := rates.ratePerMinuteCents;
    var units := BaseUnits(PerMinute, rates, endMs - startMs);
    var floorUnits := (MinBilledMinutes * rate) * MsPerMinute;
    assert units >= floorUnits by {
      assert Max(MinBilledMinutes * MsPerMinute, endMs - startMs) >= MinBilledMinutes * MsPerMinute;
    }
    if IsRush(startMs, nowMs) {
      RoundHalfUpMonotone(11 * floorUnits, 11 * units, 10 * MsPerMinute);
      RushNeverLowers(MinBilledMinutes * rate);
    } else {
      RoundHalfUpMonotone(floorUnits, units, MsPerMinute);
      RoundHalfUpExact(MinBilledMinutes * rate, MsPerMinute);
    }
  }

  /** For a whole number of minutes m of at least 10, and no rush fee, the price is m * rate. */
  lemma PerMinuteWholeMinutes(rates: ExpertRates, startMs: int, minutes: int, nowMs: int)
    requires minutes >= MinBilledMinutes
    requires !IsRush(startMs, nowMs)
    ensures PriceCents(PerMinute, rates, startMs, startMs + minutes * MsPerMinute, nowMs) ==
            minutes * rates.ratePerMinuteCents
  {
    var endMs := startMs + minutes * MsPerMinute;
    assert BaseUnits(PerMinute, rates, endMs - startMs) == (minutes * rates.ratePerMinuteCents) * MsPerMinute;
    RoundHalfUpExact(minutes * rates.ratePerMinuteCents, MsPerMinute);
  }

  /** A start in the past, or now, is always a rush booking. */
  lemma PastStartIsRush(startMs: int, nowMs: int)
    requires startMs <= nowMs
    ensures IsRush(startMs, nowMs)
  {
  }

  /** The expert's net never exceeds the price and is never negative. */
  lemma NetWithinPrice(priceCents: int, commissionPct: int)
    requires priceCents >= 0 && 0 <= commissionPct <= 100
    ensures 0 <= ExpertNetCents(priceCents, commissionPct) <= priceCents
  {
    var n := priceCents * (100 - commissionPct);
    assert 0 <= n <= priceCents * 100;
    RoundHalfUpMonotone(0, n, 100);
    RoundHalfUpMonotone(n, priceCents * 100, 100);
    RoundHalfUpExact(0, 100);
    RoundHalfUpExact(priceCents, 100);
  }

  /** Wherever the source's amount is a whole number of cents, `PriceCents` is that amount. */
  lemma PriceAgreesWithSource(mode: Mode, rates: ExpertRates, startMs: int, endMs: int, nowMs: int)
    requires AmountUnitsAsWritten(mode, rates, startMs, endMs, nowMs) % MsPerMinute == 0
    ensures PriceCents(mode, rates, startMs, endMs, nowMs) * MsPerMinute ==
            AmountUnitsAsWritten(mode, rates, startMs, endMs, nowMs)
  {
    var units := BaseUnits(mode, rates, endMs - startMs);
    if !IsRush(startMs, nowMs) {
      RoundHalfUpExact(units / MsPerMinute, MsPerMinute);
      assert units == (units / MsPerMinute) * MsPerMinute;
    }
  }

  /** A 10.25-minute per-minute booking at 850 cents a minute booked two days ahead: the source's
      amount is 8712.5 cents, which is not a whole number of cents; `PriceCents` gives 8713. */
  lemma FractionalCentsExample()
    ensures var rates := ExpertRates(850, 1800, 3200, 5800);
            var now := 0;
            var start := 48 * MsPerHour;
            var end := start + 615000;
            AmountUnitsAsWritten(PerMinute, rates, start, end, now) == 87125 * MsPerMinute / 10 &&
            AmountUnitsAsWritten(PerMinute, rates, start, end, now) % MsPerMinute != 0 &&
            PriceCents(PerMinute, rates, start, end, now) == 8713
  {
  }

  /** The seeded expert (850 a minute; tiers 1800/3200/5800): a 30-minute fixed booking two days
      ahead costs 3200 with 2560 for the expert; five hours ahead it costs 3520 with 2816 for the
      expert; a 5-minute per-minute booking two days ahead is charged 10 minutes, 8500. */
  lemma SeedExamples()
    ensures var rates := ExpertRates(850, 1800, 3200, 5800);
            var start := 48 * MsPerHour;
            QuoteFor(Fixed, rates, start, start + 30 * MsPerMinute, 0) == Quote(3200, 20, 2560) &&
            QuoteFor(Fixed, rates, start, start + 30 * MsPerMinute, start - 5 * MsPerHour) == Quote(3520, 20, 2816) &&
            QuoteFor(PerMinute, rates, start, start + 5 * MsPerMinute, 0).priceCentsTotal == 8500
  {
    var rates := ExpertRates(850, 1800, 3200, 5800);
    RushedWholeCents(3200);
  }

  // ---- per-minute completion ---------------------------------------------------------

  /** `Math.round(actualMinutes * (price / scheduledMinutes))`; the minutes cancel, leaving
      the ratio of the two durations in milliseconds. No 10-minute floor, no cap. */
  function ReconciledAmount(actualMs: int, priceCents: int, scheduledMs: int): int
    requires scheduledMs != 0
  {
    RoundQuotient(actualMs * priceCents, scheduledMs)
  }

  /** A session that lasted exactly as scheduled is charged the authorised price. */
  lemma ReconcileFullSession(durationMs: int, priceCents: int)
    requires durationMs != 0
    ensures ReconciledAmount(durationMs, priceCents, durationMs) == priceCents
  {
    if durationMs > 0 {
      RoundHalfUpExact(priceCents, durationMs);
    } else {
      assert -(durationMs * priceCents) == priceCents * -durationMs;
      RoundHalfUpExact(priceCents, -durationMs);
    }
  }

  /** A longer session never costs less. */
  lemma ReconcileMonotone(a1: int, a2: int, priceCents: int, scheduledMs: int)
    requires scheduledMs > 0 && priceCents >= 0 && a1 <= a2
    ensures ReconciledAmount(a1, priceCents, scheduledMs) <= ReconciledAmount(a2, priceCents, scheduledMs)
  {
    assert a1 * priceCents <= a2 * priceCents by {
      assert (a2 - a1) * priceCents >= 0;
    }
    RoundHalfUpMonotone(a1 * priceCents, a2 * priceCents, scheduledMs);
  }

  /** A session no longer than scheduled is never charged more than the authorised price. */
  lemma ReconcileWithinAuthorised(actualMs: int, priceCents: int, scheduledMs: int)
    requires scheduledMs > 0 && priceCents >= 0 && actualMs <= scheduledMs
    ensures ReconciledAmount(actualMs, priceCents, scheduledMs) <= priceCents
  {
    ReconcileMonotone(actualMs, scheduledMs, priceCents, scheduledMs);
    ReconcileFullSession(scheduledMs, priceCents);
  }

  /** 10:00-10:30 authorised at 18000 (30 minutes at 600): 22 minutes are charged 13200; one minute
      is charged 600, under the 10-minute floor of creation; 40 minutes are charged 24000, more
      than was authorised. */
  lemma ReconcileExamples()
    ensures ReconciledAmount(22 * MsPerMinute, 18000, 30 * MsPerMinute) == 13200
    ensures ReconciledAmount(1 * MsPerMinute, 18000, 30 * MsPerMinute) == 600
    ensures ReconciledAmount(40 * MsPerMinute, 18000, 30 * MsPerMinute) == 24000
  {
  }
}
