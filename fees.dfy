/** The fee rule the store applies at checkout (store.tsx, `checkoutVehicle`):
    elapsed milliseconds are rounded up to whole minutes, minutes up to whole
    hours, hours are priced at the vehicle's hourly rate, and the final amount
    adds the extras, subtracts the discount and is clamped at zero. */
module Fees {
  import opened Types

  const MsPerMinute: int := 60000
  const MinutesPerHour: int := 60
  const MsPerHour: int := 3600000

  /** `Math.ceil(a / b)` for an integer numerator and a positive integer divisor. */
  function CeilDiv(a: int, b: int): (q: int)
    requires b > 0
    ensures b * (q - 1) < a <= b * q
  {
    -((-a) / b)
  }

  /** JavaScript's `Math.round`: halves round up. */
  function JsRound(x: real): (r: int)
    ensures r as real - 0.5 <= x < r as real + 0.5
  {
    (x + 0.5).Floor
  }

  /** The two bounds of `CeilDiv` pin its value down. */
  lemma CeilDivUnique(a: int, b: int, q: int)
    requires b > 0
    requires b * (q - 1) < a <= b * q
    ensures CeilDiv(a, b) == q
  {
  }

  /** Rounding up never makes a larger numerator give a smaller quotient. */
  lemma CeilDivMonotone(a1: int, a2: int, b: int)
    requires b > 0
    requires a1 <= a2
    ensures CeilDiv(a1, b) <= CeilDiv(a2, b)
  {
  }

  /** Rounding up in two stages is rounding up once by the product. */
  lemma CeilDivNested(a: int, m: int, n: int)
    requires m > 0 && n > 0
    ensures CeilDiv(CeilDiv(a, m), n) == CeilDiv(a, m * n)
  {
    var q := CeilDiv(a, m);
    var r := CeilDiv(q, n);
    assert q <= n * r;
    assert m * q <= m * (n * r);
    assert n * (r - 1) <= q - 1;
    assert m * (n * (r - 1)) <= m * (q - 1);
    assert m * (n * (r - 1)) == (m * n) * (r - 1);
    assert m * (n * r) == (m * n) * r;
    CeilDivUnique(a, m * n, r);
  }

  /** `Math.ceil(durationMs / 60000)`. */
  function DurationMinutes(elapsedMs: int): int
  {
    CeilDiv(elapsedMs, MsPerMinute)
  }

  /** `Math.ceil(durationMinutes / 60)`. */
  function BillableHours(minutes: int): int
  {
    CeilDiv(minutes, MinutesPerHour)
  }

  /** `hours * rates[type]`. */
  function BaseAmount(hours: int, rate: real): real
  {
    hours as real * rate
  }

  /** `Math.max(0, base + extras - discount)`. */
  function FinalAmount(base: real, extra: real, discount: real): (r: real)
    ensures r >= 0.0
    ensures r >= base + extra - discount
    ensures r == base + extra - discount || r == 0.0
  {
    if base + extra - discount > 0.0 then base + extra - discount else 0.0
  }

  /** The amounts `checkoutVehicle` computes for one stay. */
  datatype Charge = Charge(durationMinutes: int, hours: int, baseAmount: real, extraAmount: real,
                           discountAmount: real, finalAmount: real)

  function ChargeFor(elapsedMs: int, rate: real, extra: real, discount: real): Charge
  {
    var minutes := DurationMinutes(elapsedMs);
    var hours := BillableHours(minutes);
    var base := BaseAmount(hours, rate);
    Charge(minutes, hours, base, extra, discount, FinalAmount(base, extra, discount))
  }

  /** What a charge promises: partial minutes and partial hours are billed in
      full, the base is whole hours at the rate, and the final amount is the
      clamped total. */
  lemma ChargeMeaning(elapsedMs: int, rate: real, extra: real, discount: real)
    ensures var c := ChargeFor(elapsedMs, rate, extra, discount);
      && MsPerMinute * (c.durationMinutes - 1) < elapsedMs <= MsPerMinute * c.durationMinutes
      && MinutesPerHour * (c.hours - 1) < c.durationMinutes <= MinutesPerHour * c.hours
      && MsPerHour * (c.hours - 1) < elapsedMs <= MsPerHour * c.hours
      && c.baseAmount == c.hours as real * rate
      && c.finalAmount >= 0.0
      && (c.baseAmount + extra - discount >= 0.0 ==> c.finalAmount == c.baseAmount + extra - discount)
      && (c.baseAmount + extra - discount < 0.0 ==> c.finalAmount == 0.0)
  {
    var c := ChargeFor(elapsedMs, rate, extra, discount);
    CeilDivNested(elapsedMs, MsPerMinute, MinutesPerHour);
    assert c.hours == CeilDiv(elapsedMs, MsPerHour);
  }

  /** A longer stay is never charged a smaller base at a non-negative rate. */
  lemma BaseMonotone(ms1: int, ms2: int, rate: real)
    requires ms1 <= ms2 && rate >= 0.0
    ensures ChargeFor(ms1, rate, 0.0, 0.0).baseAmount <= ChargeFor(ms2, rate, 0.0, 0.0).baseAmount
  {
    CeilDivMonotone(ms1, ms2, MsPerMinute);
    CeilDivMonotone(DurationMinutes(ms1), DurationMinutes(ms2), MinutesPerHour);
    var h1, h2 := BillableHours(DurationMinutes(ms1)), BillableHours(DurationMinutes(ms2));
    assert (h2 - h1) as real * rate >= 0.0;
  }

  /** With no extras and no discount, a stay of non-negative length at a
      non-negative rate is charged exactly its base, which is non-negative. */
  lemma PlainChargeIsBase(elapsedMs: int, rate: real)
    requires elapsedMs >= 0 && rate >= 0.0
    ensures var c := ChargeFor(elapsedMs, rate, 0.0, 0.0);
      c.finalAmount == c.baseAmount && c.baseAmount >= 0.0
  {
    var hours := BillableHours(DurationMinutes(elapsedMs));
    assert hours >= 0;
    BaseNonNegative(hours, rate);
  }

  lemma BaseNonNegative(hours: int, rate: real)
    requires hours >= 0 && rate >= 0.0
    ensures BaseAmount(hours, rate) >= 0.0
  {
  }

  /** A car parked 75 minutes at $5/h pays two hours: $10. */
  lemma SeventyFiveMinutes()
    ensures ChargeFor(75 * MsPerMinute, 5.0, 0.0, 0.0) == Charge(75, 2, 10.0, 0.0, 0.0, 10.0)
  {
    CeilDivUnique(75 * MsPerMinute, MsPerMinute, 75);
    CeilDivUnique(75, MinutesPerHour, 2);
  }

  /** The same stay with a $3.99 extra and a $2.00 discount pays $11.99. */
  lemma SeventyFiveMinutesWithExtras()
    ensures ChargeFor(75 * MsPerMinute, 5.0, 3.99, 2.0).finalAmount == 11.99
  {
    SeventyFiveMinutes();
  }
}
