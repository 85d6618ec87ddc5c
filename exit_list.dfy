/** The exit desk (components/ExitList.tsx): searching the active tickets,
    opening the checkout terminal with add-on services and a discount slider,
    the per-minute price preview, and finalising the checkout through the
    ledger. */
module ExitList {
  import opened Wrappers
  import opened Types
  import opened Fees
  import Seqs
  import Text
  import Store

  /** An entry of the external add-on service catalog. */
  datatype Service = Service(id: string, caption: string, price: real)

  /** `extras[key]` read as a boolean: a missing key counts as not selected. */
  predicate IsSelected(extras: map<string, bool>, key: string)
  {
    key in extras && extras[key]
  }

  // ---------------------------------------------------------------------------
  // Search
  // ---------------------------------------------------------------------------

  function MatchesTerm(term: string): Vehicle -> bool
  {
    (v: Vehicle) => Text.Contains(v.plateNumber, Text.Upper(term))
  }

  /** `filteredVehicles`: the vehicles whose plate contains the upper-cased term. */
  function SearchVehicles(vs: seq<Vehicle>, term: string): seq<Vehicle>
  {
    Seqs.Filter(vs, MatchesTerm(term))
  }

  /** An empty search term keeps every vehicle, in order. */
  lemma EmptySearchKeepsAll(vs: seq<Vehicle>)
    ensures SearchVehicles(vs, "") == vs
  {
    forall i | 0 <= i < |vs|
      ensures MatchesTerm("")(vs[i])
    {
      Text.ContainsEmpty(vs[i].plateNumber);
    }
    Seqs.FilterAll(vs, MatchesTerm(""));
  }

  /** The search keeps the vehicles in their original order: searching a
      concatenation searches each part. */
  lemma SearchKeepsOrder(a: seq<Vehicle>, b: seq<Vehicle>, term: string)
    ensures SearchVehicles(a + b, term) == SearchVehicles(a, term) + SearchVehicles(b, term)
    ensures forall i :: 0 <= i < |SearchVehicles(a, term)| ==>
      Text.Contains(SearchVehicles(a, term)[i].plateNumber, Text.Upper(term))
  {
    Seqs.FilterConcat(a, b, MatchesTerm(term));
  }

  /** The search lists exactly the vehicles whose plate contains the
      upper-cased term. */
  lemma SearchFindsMatches(vs: seq<Vehicle>, term: string)
    ensures forall v :: v in SearchVehicles(vs, term) <==> v in vs && Text.Contains(v.plateNumber, Text.Upper(term))
  {
    Seqs.FilterMembers(vs, MatchesTerm(term));
  }

  // ---------------------------------------------------------------------------
  // Add-on services
  // ---------------------------------------------------------------------------

  function SelectedBy(extras: map<string, bool>): Service -> bool
  {
    (s: Service) => IsSelected(extras, s.id)
  }

  /** The catalog entries whose key is selected, in catalog order. */
  function SelectedServices(catalog: seq<Service>, extras: map<string, bool>): seq<Service>
  {
    Seqs.Filter(catalog, SelectedBy(extras))
  }

  /** `extraItems`: the labels of the selected entries, in catalog order. */
  function ExtraItems(catalog: seq<Service>, extras: map<string, bool>): (r: seq<string>)
    ensures |r| == |SelectedServices(catalog, extras)| <= |catalog|
    ensures forall c :: c in r <==> exists s :: s in catalog && IsSelected(extras, s.id) && s.caption == c
  {
    var chosen := SelectedServices(catalog, extras);
    var r := seq(|chosen|, i requires 0 <= i < |chosen| => chosen[i].caption);
    Seqs.FilterMembers(catalog, SelectedBy(extras));
    CaptionsOf(chosen, r);
    r
  }

  /** The labels follow catalog order: listing a catalog made of two parts
      lists the first part's labels, then the second's. */
  lemma ExtraItemsConcat(a: seq<Service>, b: seq<Service>, extras: map<string, bool>)
    ensures ExtraItems(a + b, extras) == ExtraItems(a, extras) + ExtraItems(b, extras)
  {
    Seqs.FilterConcat(a, b, SelectedBy(extras));
  }

  /** One catalog entry gives its label when selected and nothing otherwise. */
  lemma ExtraItemsSingle(s: Service, extras: map<string, bool>)
    ensures ExtraItems([s], extras) == if IsSelected(extras, s.id) then [s.caption] else []
  {
    assert [s] == [s] + [];
  }

  /** A caption is listed exactly when some listed service carries it. */
  lemma CaptionsOf(chosen: seq<Service>, r: seq<string>)
    requires |r| == |chosen|
    requires forall i :: 0 <= i < |r| ==> r[i] == chosen[i].caption
    ensures forall c :: c in r <==> exists s :: s in chosen && s.caption == c
  {
    forall c
      ensures c in r <==> exists s :: s in chosen && s.caption == c
    {
      if c in r {
        var i :| 0 <= i < |r| && r[i] == c;
        assert chosen[i] in chosen;
      }
      if exists s :: s in chosen && s.caption == c {
        var s :| s in chosen && s.caption == c;
        var i :| 0 <= i < |chosen| && chosen[i] == s;
        assert r[i] == c;
      }
    }
  }

  function Price(s: Service): real
  {
    s.price
  }

  /** `extraCost`: the summed price of the selected entries. */
  function ExtraCost(catalog: seq<Service>, extras: map<string, bool>): real
  {
    Seqs.Sum(SelectedServices(catalog, extras), Price)
  }

  /** The extra cost is the catalog-wide sum of the prices whose key is selected. */
  lemma ExtraCostIsSelectedSum(catalog: seq<Service>, extras: map<string, bool>)
    ensures ExtraCost(catalog, extras) == Seqs.Sum(catalog, SelectedPrice(extras))
  {
    Seqs.SumFilter(catalog, SelectedBy(extras), Price, SelectedPrice(extras));
  }

  function SelectedPrice(extras: map<string, bool>): Service -> real
  {
    (s: Service) => if IsSelected(extras, s.id) then s.price else 0.0
  }

  /** With non-negative catalog prices the extra cost is non-negative. */
  lemma ExtraCostNonNegative(catalog: seq<Service>, extras: map<string, bool>)
    requires forall i :: 0 <= i < |catalog| ==> catalog[i].price >= 0.0
    ensures ExtraCost(catalog, extras) >= 0.0
  {
    var chosen := SelectedServices(catalog, extras);
    Seqs.FilterMembers(catalog, SelectedBy(extras));
    forall i | 0 <= i < |chosen|
      ensures Price(chosen[i]) >= 0.0
    {
      assert chosen[i] in catalog;
    }
    Seqs.SumNonNegative(chosen, Price);
  }

  /** Non-negative reals have a non-negative product. */
  lemma ProductNonNegative(a: real, b: real)
    requires a >= 0.0 && b >= 0.0
    ensures a * b >= 0.0
  {
  }

  /** With nothing selected there is no extra cost and no item. */
  lemma NothingSelected(catalog: seq<Service>)
    ensures ExtraCost(catalog, map[]) == 0.0 && ExtraItems(catalog, map[]) == []
  {
    Seqs.FilterNone(catalog, SelectedBy(map[]));
  }

  function CatalogIds(catalog: seq<Service>): set<string>
  {
    set i | 0 <= i < |catalog| :: catalog[i].id
  }

  /** The selection `handleInitiateCheckout` starts from: one key per catalog
      entry, true exactly for the services the vehicle requested. */
  function InitialExtras(catalog: seq<Service>, requested: seq<string>): (r: map<string, bool>)
    ensures r.Keys == CatalogIds(catalog)
    ensures forall i :: 0 <= i < |catalog| ==> (IsSelected(r, catalog[i].id) <==> catalog[i].id in requested)
  {
    map id | id in CatalogIds(catalog) :: id in requested
  }

  /** `{ ...prev, [key]: !prev[key] }`. */
  function Toggle(extras: map<string, bool>, key: string): (r: map<string, bool>)
    ensures IsSelected(r, key) == !IsSelected(extras, key)
    ensures forall k :: k != key ==> (k in r <==> k in extras) && (k in r ==> r[k] == extras[k])
  {
    extras[key := !IsSelected(extras, key)]
  }

  // ---------------------------------------------------------------------------
  // Per-minute pricing, discount and the preview
  // ---------------------------------------------------------------------------

  /** `diffMins * (hourlyRate / 60)`. */
  function ProratedCost(minutes: int, rate: real): real
  {
    minutes as real * (rate / 60.0)
  }

  /** `(subTotal * discountPercent) / 100`. */
  function DiscountFor(subTotal: real, percent: int): real
  {
    subTotal * percent as real / 100.0
  }

  /** The values the discount slider produces: 0 to 100 in steps of 5. */
  predicate SliderValue(p: int)
  {
    0 <= p <= 100 && p % 5 == 0
  }

  /** JavaScript's `%` on integers: the remainder takes the sign of the dividend. */
  function JsRem(a: int, b: int): int
    requires b > 0
  {
    if a >= 0 then a % b else -((-a) % b)
  }

  datatype PreviewCosts = PreviewCosts(base: real, extra: real, total: real, hours: int, mins: int, discount: real)

  /** `getPreviewCosts`. */
  function Preview(confirming: Option<Vehicle>, rates: ParkingRates, catalog: seq<Service>,
                   extras: map<string, bool>, percent: int, now: int): PreviewCosts
  {
    match confirming
    case None => PreviewCosts(0.0, 0.0, 0.0, 0, 0, 0.0)
    case Some(v) =>
      var minutes := DurationMinutes(now - v.entryTime);
      var base := ProratedCost(minutes, rates.RateFor(v.vehicleType));
      var extra := ExtraCost(catalog, extras);
      var sub := base + extra;
      var discount := DiscountFor(sub, percent);
      PreviewCosts(base, extra, sub - discount, minutes / 60, JsRem(minutes, 60), discount)
  }

  /** The preview's clock splits the elapsed minutes into hours and a remainder
      below sixty. */
  lemma PreviewClock(v: Vehicle, rates: ParkingRates, catalog: seq<Service>, extras: map<string, bool>,
                     percent: int, now: int)
    requires now >= v.entryTime
    ensures var p := Preview(Some(v), rates, catalog, extras, percent, now);
      && p.hours * 60 + p.mins == DurationMinutes(now - v.entryTime)
      && 0 <= p.mins < 60
      && p.hours >= 0
  {
  }

  /** The per-minute price of a non-negative stay at a non-negative rate is
      non-negative. */
  lemma ProratedNonNegative(minutes: int, rate: real)
    requires minutes >= 0 && rate >= 0.0
    ensures ProratedCost(minutes, rate) >= 0.0
  {
    ProductNonNegative(minutes as real, rate / 60.0);
  }

  /** A slider percentage of a non-negative subtotal lies between zero and the
      subtotal, and what remains is the complementary percentage. */
  lemma DiscountBounds(sub: real, percent: int)
    requires sub >= 0.0 && 0 <= percent <= 100
    ensures 0.0 <= DiscountFor(sub, percent) <= sub
    ensures sub - DiscountFor(sub, percent) == sub * (100 - percent) as real / 100.0
  {
    ProductNonNegative(sub, percent as real);
    ProductNonNegative(sub, (100 - percent) as real);
  }

  /** With a non-negative rate and prices and a slider value, the preview total
      is the subtotal less its percentage, and never negative. */
  lemma PreviewTotalNonNegative(v: Vehicle, rates: ParkingRates, catalog: seq<Service>,
                                extras: map<string, bool>, percent: int, now: int)
    requires now >= v.entryTime
    requires rates.NonNegative()
    requires forall i :: 0 <= i < |catalog| ==> catalog[i].price >= 0.0
    requires SliderValue(percent)
    ensures var p := Preview(Some(v), rates, catalog, extras, percent, now);
      && p.total == (p.base + p.extra) * (100 - percent) as real / 100.0
      && p.base >= 0.0 && p.extra >= 0.0 && p.discount >= 0.0
      && p.total >= 0.0
  {
    var p := Preview(Some(v), rates, catalog, extras, percent, now);
    var minutes := DurationMinutes(now - v.entryTime);
    PreviewParts(v, rates, catalog, extras, percent, now);
    assert p.base >= 0.0 by {
      ProratedNonNegative(minutes, rates.RateFor(v.vehicleType));
    }
    assert p.extra >= 0.0 by {
      ExtraCostNonNegative(catalog, extras);
    }
    DiscountedTotal(p, percent);
  }

  /** The preview of a vehicle, field by field. */
  lemma PreviewParts(v: Vehicle, rates: ParkingRates, catalog: seq<Service>, extras: map<string, bool>,
                     percent: int, now: int)
    ensures var minutes := DurationMinutes(now - v.entryTime);
      var base := ProratedCost(minutes, rates.RateFor(v.vehicleType));
      var extra := ExtraCost(catalog, extras);
      var d := DiscountFor(base + extra, percent);
      Preview(Some(v), rates, catalog, extras, percent, now)
        == PreviewCosts(base, extra, base + extra - d, minutes / 60, JsRem(minutes, 60), d)
  {
  }

  /** A preview whose discount is a slider percentage of its non-negative
      subtotal keeps the complementary percentage, never negative. */
  lemma DiscountedTotal(p: PreviewCosts, percent: int)
    requires p.base >= 0.0 && p.extra >= 0.0 && 0 <= percent <= 100
    requires p.discount == DiscountFor(p.base + p.extra, percent)
    requires p.total == p.base + p.extra - p.discount
    ensures p.total == (p.base + p.extra) * (100 - percent) as real / 100.0
    ensures p.discount >= 0.0 && p.total >= 0.0
  {
    DiscountBounds(p.base + p.extra, percent);
  }

  /** The per-minute price never exceeds the hour-rounded base the ledger
      charges, and falls short of it by at most one hour's rate. */
  lemma ProratedBelowCharged(minutes: int, rate: real)
    requires rate >= 0.0
    ensures ProratedCost(minutes, rate) <= BaseAmount(BillableHours(minutes), rate)
    ensures BaseAmount(BillableHours(minutes), rate) - ProratedCost(minutes, rate) <= rate
  {
    var h := BillableHours(minutes);
    assert 60 * (h - 1) < minutes <= 60 * h;
    var gap := (60 * h - minutes) as real;
    assert BaseAmount(h, rate) - ProratedCost(minutes, rate) == gap * (rate / 60.0);
    ProductNonNegative(gap, rate / 60.0);
    ProductNonNegative(60.0 - gap, rate / 60.0);
  }

  /** `currentCost` on a vehicle card: the same per-minute price the preview shows. */
  function CardEstimate(v: Vehicle, rates: ParkingRates, now: int): (r: real)
    ensures r == Preview(Some(v), rates, [], map[], 0, now).base
  {
    ProratedCost(DurationMinutes(now - v.entryTime), rates.RateFor(v.vehicleType))
  }

  /** The discount the terminal sends to the ledger: the slider's percentage of
      the per-minute base plus extras, not of the hour-rounded base. */
  function TerminalDiscount(v: Vehicle, rates: ParkingRates, catalog: seq<Service>,
                            extras: map<string, bool>, percent: int, now: int): real
  {
    var minutes := DurationMinutes(now - v.entryTime);
    DiscountFor(ProratedCost(minutes, rates.RateFor(v.vehicleType)) + ExtraCost(catalog, extras), percent)
  }

  /** The terminal takes its discount from the per-minute base at its own
      clock reading `terminalNow`; the ledger reads the clock again and bills
      whole hours at `now`, no earlier. The per-minute base at the first reading
      is below the hour-rounded base at the second, so a checkout from the
      terminal never reaches the ledger's clamp at zero: the charged amount is
      exactly base plus extras minus discount. `e` is the extras the terminal
      sends, whose total `ExtraCostNonNegative` shows is not negative. */
  lemma TerminalCheckoutNeverClamps(v: Vehicle, rates: ParkingRates, e: Store.Extras, percent: int,
                                    txId: string, terminalNow: int, now: int)
    requires v.entryTime <= terminalNow <= now
    requires rates.NonNegative()
    requires e.amount >= 0.0
    requires 0 <= percent <= 100
    ensures var minutes := DurationMinutes(terminalNow - v.entryTime);
      var d := DiscountFor(ProratedCost(minutes, rates.RateFor(v.vehicleType)) + e.amount, percent);
      var t := Store.Settle(v, rates, e, d, txId, now);
      && 0.0 <= d
      && t.baseAmount + t.extraAmount - d >= 0.0
      && t.finalAmount == t.baseAmount + t.extraAmount - t.discountAmount
  {
    var minutes := DurationMinutes(terminalNow - v.entryTime);
    var rate := rates.RateFor(v.vehicleType);
    var p := ProratedCost(minutes, rate);
    TerminalPriceBelowCharge(terminalNow - v.entryTime, now - v.entryTime, rate);
    DiscountBounds(p + e.amount, percent);
    SettledWithoutClamp(v, rates, e, DiscountFor(p + e.amount, percent), txId, now, p);
  }

  /** The receipt the checkout panel obtains, with the extras and the
      discount it computes from its catalog, is never clamped. */
  lemma TerminalReceiptExact(v: Vehicle, rates: ParkingRates, catalog: seq<Service>, extras: map<string, bool>,
                             percent: int, txId: string, terminalNow: int, now: int)
    requires v.entryTime <= terminalNow <= now
    requires rates.NonNegative()
    requires SliderValue(percent)
    requires forall i :: 0 <= i < |catalog| ==> catalog[i].price >= 0.0
    ensures var e := Store.Extras(ExtraCost(catalog, extras), ExtraItems(catalog, extras));
      var t := Store.Settle(v, rates, e, TerminalDiscount(v, rates, catalog, extras, percent, terminalNow), txId, now);
      t.finalAmount == t.baseAmount + t.extraAmount - t.discountAmount
  {
    ExtraCostNonNegative(catalog, extras);
    var e := Store.Extras(ExtraCost(catalog, extras), ExtraItems(catalog, extras));
    TerminalCheckoutNeverClamps(v, rates, e, percent, txId, terminalNow, now);
  }

  /** The per-minute price read at the terminal's instant is never above the
      hourly charge at any later instant. */
  lemma TerminalPriceBelowCharge(terminalMs: int, ms: int, rate: real)
    requires 0 <= terminalMs <= ms && rate >= 0.0
    ensures 0.0 <= ProratedCost(DurationMinutes(terminalMs), rate)
    ensures ProratedCost(DurationMinutes(terminalMs), rate) <= BaseAmount(BillableHours(DurationMinutes(ms)), rate)
  {
    var minutes := DurationMinutes(terminalMs);
    ProratedBelowCharged(minutes, rate);
    ProratedNonNegative(minutes, rate);
    BaseMonotone(terminalMs, ms, rate);
  }

  /** A settlement whose discount is covered by some amount `p` below the
      charged base plus the extras is not clamped. */
  lemma SettledWithoutClamp(v: Vehicle, rates: ParkingRates, e: Store.Extras, d: real, txId: string, now: int, p: real)
    requires 0.0 <= p <= BaseAmount(BillableHours(DurationMinutes(now - v.entryTime)), rates.RateFor(v.vehicleType))
    requires e.amount >= 0.0 && 0.0 <= d <= p + e.amount
    ensures var t := Store.Settle(v, rates, e, d, txId, now);
      && t.baseAmount + t.extraAmount - d >= 0.0
      && t.finalAmount == t.baseAmount + t.extraAmount - t.discountAmount
  {
    Store.SettleMeaning(v, rates, e, d, txId, now);
    var t := Store.Settle(v, rates, e, d, txId, now);
    assert t.baseAmount == BaseAmount(BillableHours(DurationMinutes(now - v.entryTime)), rates.RateFor(v.vehicleType));
    assert t.baseAmount + t.extraAmount - t.discountAmount >= 0.0;
  }

  /** A 61-minute car stay at $5/h previews about $5.08 but is charged $10: the
      preview and the charged amount use different rules. */
  lemma PreviewDiffersFromCharge(v: Vehicle, now: int)
    requires v.vehicleType == Car && now == v.entryTime + 61 * MsPerMinute
    ensures Preview(Some(v), ParkingRates(5.0, 2.0, 10.0), [], map[], 0, now).total == 305.0 / 60.0
    ensures Store.Settle(v, ParkingRates(5.0, 2.0, 10.0), Store.NoExtras, 0.0, "t", now).finalAmount == 10.0
  {
    CeilDivUnique(61 * MsPerMinute, MsPerMinute, 61);
    CeilDivUnique(61, MinutesPerHour, 2);
    NothingSelected([]);
  }

  // ---------------------------------------------------------------------------
  // The terminal's state
  // ---------------------------------------------------------------------------

  class CheckoutPanel {
    var searchTerm: string
    var confirmingVehicle: Option<Vehicle>
    var extras: map<string, bool>
    var discountPercent: int
    var receipt: Option<Transaction>

    ghost predicate Valid()
      reads this
    {
      SliderValue(discountPercent)
    }

    constructor ()
      ensures Valid()
      ensures searchTerm == "" && confirmingVehicle == None && extras == map[]
      ensures discountPercent == 0 && receipt == None
    {
      searchTerm := "";
      confirmingVehicle := None;
      extras := map[];
      discountPercent := 0;
      receipt := None;
    }

    method SetSearchTerm(term: string)
      modifies this`searchTerm
      ensures searchTerm == term
    {
      searchTerm := term;
    }

    /** `handleInitiateCheckout`: open the terminal for `v`, preselect the
        services it requested and reset the discount. */
    method InitiateCheckout(v: Vehicle, catalog: seq<Service>, requested: seq<string>)
      modifies this
      ensures Valid()
      ensures confirmingVehicle == Some(v)
      ensures extras == InitialExtras(catalog, requested)
      ensures discountPercent == 0
      ensures searchTerm == old(searchTerm) && receipt == old(receipt)
    {
      confirmingVehicle := Some(v);
      extras := InitialExtras(catalog, requested);
      discountPercent := 0;
    }

    /** `toggleExtra`: flip one key and leave the others alone. */
    method ToggleExtra(key: string)
      modifies this`extras
      ensures extras == Toggle(old(extras), key)
      ensures IsSelected(extras, key) == !IsSelected(old(extras), key)
      ensures forall k :: k != key ==> IsSelected(extras, k) == IsSelected(old(extras), k)
    {
      extras := Toggle(extras, key);
    }

    /** The slider's `onChange`. */
    method SetDiscountPercent(p: int)
      requires SliderValue(p)
      modifies this`discountPercent
      ensures Valid() && discountPercent == p
    {
      discountPercent := p;
    }

    /** The close button of the terminal. */
    method CancelCheckout()
      modifies this`confirmingVehicle
      ensures confirmingVehicle == None
    {
      confirmingVehicle := None;
    }

    /** The "Done" and close buttons of the receipt. */
    method CloseReceipt()
      modifies this`receipt
      ensures receipt == None
    {
      receipt := None;
    }

    /** `getPreviewCosts` for the current terminal state. */
    function PreviewCostsNow(rates: ParkingRates, catalog: seq<Service>, now: int): (p: PreviewCosts)
      reads this
      ensures confirmingVehicle.None? ==> p == PreviewCosts(0.0, 0.0, 0.0, 0, 0, 0.0)
    {
      Preview(confirmingVehicle, rates, catalog, extras, discountPercent, now)
    }

    /** `handleFinalizeCheckout`: with a vehicle on the terminal, check it out
        through the ledger with the selected extras and the percentage discount;
        show the receipt on success, keep everything when the ledger refuses.
        The terminal reads the clock for its discount (`terminalNow`) and the
        ledger reads it again when it settles (`now`). When the clock has not
        gone back between the two readings, the charged amount is not clamped. */
    method FinalizeCheckout(ledger: Store.ParkingProvider, catalog: seq<Service>, txId: string, logId: string,
                            terminalNow: int, now: int)
      requires ledger.Valid()
      modifies this, ledger
      ensures ledger.Valid()
      ensures old(confirmingVehicle).None? ==> unchanged(this) && unchanged(ledger)
      ensures old(confirmingVehicle).Some? ==>
        var v := old(confirmingVehicle).value;
        var found := Store.FindVehicle(old(ledger.activeVehicles), v.id);
        var e := Store.Extras(ExtraCost(catalog, old(extras)), ExtraItems(catalog, old(extras)));
        var d := TerminalDiscount(v, old(ledger.rates), catalog, old(extras), old(discountPercent), terminalNow);
        && (found.None? ==> unchanged(this) && unchanged(ledger))
        && (found.Some? ==>
              && receipt == Some(Store.Settle(old(ledger.activeVehicles)[found.value], old(ledger.rates), e, d, txId, now))
              && ledger.transactions == [receipt.value] + old(ledger.transactions)
              && receipt.value.finalAmount >= 0.0
              && ledger.State() == Store.AfterCheckout(old(ledger.State()), found.value, receipt.value, logId, now)
              && |ledger.activeVehicles| == |old(ledger.activeVehicles)| - 1
              && (old(ledger.activeVehicles)[found.value] == v && v.entryTime <= terminalNow <= now
                  && old(ledger.rates).NonNegative() && SliderValue(old(discountPercent))
                  && (forall i :: 0 <= i < |catalog| ==> catalog[i].price >= 0.0) ==>
                    receipt.value.finalAmount
                      == receipt.value.baseAmount + receipt.value.extraAmount - receipt.value.discountAmount)
              && confirmingVehicle == None
              && extras == old(extras) && discountPercent == old(discountPercent)
              && searchTerm == old(searchTerm))
    {
      if confirmingVehicle.None? {
        return;
      }
      var v := confirmingVehicle.value;
      var e := Store.Extras(ExtraCost(catalog, extras), ExtraItems(catalog, extras));
      var discount := TerminalDiscount(v, ledger.rates, catalog, extras, discountPercent, terminalNow);
      ghost var before := ledger.activeVehicles;
      ghost var rates := ledger.rates;
      var outcome := ledger.CheckoutVehicle(v.id, e, discount, txId, logId, now);
      if outcome.Success? {
        ghost var k := Store.FindVehicle(before, v.id).value;
        if before[k] == v && v.entryTime <= terminalNow <= now && rates.NonNegative() && SliderValue(discountPercent)
           && (forall i :: 0 <= i < |catalog| ==> catalog[i].price >= 0.0)
        {
          TerminalReceiptExact(v, rates, catalog, extras, discountPercent, txId, terminalNow, now);
        }
        receipt := Some(outcome.value);
        confirmingVehicle := None;
      }
    }
  }
}
