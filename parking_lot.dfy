/** The parking map (components/ParkingLot.tsx): the two zones, the slot
    filter, the distance bands, the whole-hour bill in the slot details and
    the one-click checkout. */
module ParkingLot {
  import opened Wrappers
  import opened Types
  import opened Constants
  import opened Fees
  import Store

  // ---------------------------------------------------------------------------
  // Zones
  // ---------------------------------------------------------------------------

  /** JavaScript's `s.slice(from, to)` for non-negative bounds: both are
      clamped to the length. */
  function Slice<T>(s: seq<T>, from: nat, to: nat): (r: seq<T>)
    ensures from <= to <= |s| ==> r == s[from..to]
    ensures from <= |s| < to ==> r == s[from..]
    ensures from >= |s| || from > to ==> r == []
  {
    var lo := if from < |s| then from else |s|;
    var hi := if to < |s| then to else |s|;
    if lo <= hi then s[lo..hi] else []
  }

  /** `slots.slice(0, 20)`. */
  function ZoneA(slots: seq<ParkingSlot>): seq<ParkingSlot>
  {
    Slice(slots, 0, 20)
  }

  /** `slots.slice(20, 40)`. */
  function ZoneB(slots: seq<ParkingSlot>): seq<ParkingSlot>
  {
    Slice(slots, 20, 40)
  }

  /** With the forty-slot layout the two zones split the slots in half, in
      order: Zone A holds ids 1..20 and Zone B ids 21..40. */
  lemma ZonesPartition(slots: seq<ParkingSlot>)
    requires Store.SlotLayout(slots)
    ensures ZoneA(slots) + ZoneB(slots) == slots
    ensures |ZoneA(slots)| == 20 && |ZoneB(slots)| == 20
    ensures forall i :: 0 <= i < 20 ==> ZoneA(slots)[i].id == i + 1 && ZoneB(slots)[i].id == i + 21
  {
    assert slots[..20] + slots[20..40] == slots;
  }

  // ---------------------------------------------------------------------------
  // The slot filter
  // ---------------------------------------------------------------------------

  /** `FilterType`: 'all', 'occupied', 'empty', or one vehicle type. */
  datatype SlotFilter = AllSlots | OccupiedSlots | EmptySlots | OnlyType(vehicleType: VehicleType)

  /** `slot.vehicleId ? activeVehicles.find(v => v.id === slot.vehicleId) : null`:
      an absent or empty id looks nothing up. */
  function SlotVehicle(slot: ParkingSlot, vs: seq<Vehicle>): (r: Option<Vehicle>)
    ensures r.Some? ==> slot.vehicleId == Some(r.value.id) && r.value.id != "" && r.value in vs
  {
    if slot.vehicleId.None? || slot.vehicleId.value == "" then None
    else match Store.FindVehicle(vs, slot.vehicleId.value)
      case None => None
      case Some(k) => Some(vs[k])
  }

  /** `isSlotVisible`. */
  predicate IsSlotVisible(filter: SlotFilter, slot: ParkingSlot, vs: seq<Vehicle>)
  {
    match filter
    case AllSlots => true
    case EmptySlots => !slot.isOccupied
    case OccupiedSlots => slot.isOccupied
    case OnlyType(t) => SlotVehicle(slot, vs).Some? && SlotVehicle(slot, vs).value.vehicleType == t
  }

  /** 'all' shows every slot, 'empty' exactly the free ones and 'occupied'
      exactly the taken ones. */
  lemma OccupancyFilters(slot: ParkingSlot, vs: seq<Vehicle>)
    ensures IsSlotVisible(AllSlots, slot, vs)
    ensures IsSlotVisible(EmptySlots, slot, vs) <==> !slot.isOccupied
    ensures IsSlotVisible(OccupiedSlots, slot, vs) <==> slot.isOccupied
    ensures IsSlotVisible(EmptySlots, slot, vs) != IsSlotVisible(OccupiedSlots, slot, vs)
  {
  }

  /** On a consistent ledger a type filter shows exactly the slots where an
      active vehicle of that type (with a non-empty id) is parked; in
      particular it hides every free slot. */
  lemma TypeFilterShowsParkedType(slots: seq<ParkingSlot>, vs: seq<Vehicle>, i: int, t: VehicleType)
    requires Store.Consistent(slots, vs)
    requires 0 <= i < |slots|
    ensures IsSlotVisible(OnlyType(t), slots[i], vs) <==>
      exists k :: 0 <= k < |vs| && vs[k].slotId == i + 1 && vs[k].vehicleType == t && vs[k].id != ""
    ensures IsSlotVisible(OnlyType(t), slots[i], vs) ==> slots[i].isOccupied
  {
    if IsSlotVisible(OnlyType(t), slots[i], vs) {
      var id := slots[i].vehicleId.value;
      var j := Store.FindVehicle(vs, id).value;
      assert Store.SlotHeld(slots, vs, i);
      var k :| 0 <= k < |vs| && vs[k].id == id && vs[k].slotId == i + 1;
      assert j == k;
    }
    if k :| 0 <= k < |vs| && vs[k].slotId == i + 1 && vs[k].vehicleType == t && vs[k].id != "" {
      assert Store.VehicleParked(slots, vs, k);
      var j := Store.FindVehicle(vs, vs[k].id).value;
      assert j == k;
    }
  }

  // ---------------------------------------------------------------------------
  // Distance bands
  // ---------------------------------------------------------------------------

  /** The four distance bands of `getSlotDistance`, nearest first. */
  datatype Band = NearEntrance | ZoneANear | ZoneBFar | RearExit
  {
    function Label(): string
    {
      match this
      case NearEntrance => "20m (Near Entrance)"
      case ZoneANear => "50m (Zone A)"
      case ZoneBFar => "80m (Zone B)"
      case RearExit => "120m (Rear Exit)"
    }

    /** Distance order: 0 is nearest the entrance. */
    function Rank(): nat
    {
      match this
      case NearEntrance => 0
      case ZoneANear => 1
      case ZoneBFar => 2
      case RearExit => 3
    }
  }

  /** The band of a slot id: up to 10, up to 20, up to 30, then the rest. */
  function BandOf(id: int): (b: Band)
    ensures b == NearEntrance <==> id <= 10
    ensures b == ZoneANear <==> 10 < id <= 20
    ensures b == ZoneBFar <==> 20 < id <= 30
    ensures b == RearExit <==> 30 < id
  {
    if id <= 10 then NearEntrance
    else if id <= 20 then ZoneANear
    else if id <= 30 then ZoneBFar
    else RearExit
  }

  /** `getSlotDistance`. */
  function SlotDistance(id: int): string
  {
    BandOf(id).Label()
  }

  /** A larger id is never nearer the entrance, and the four labels differ. */
  lemma BandsMonotone(id1: int, id2: int)
    requires id1 <= id2
    ensures BandOf(id1).Rank() <= BandOf(id2).Rank()
    ensures SlotDistance(id1) == SlotDistance(id2) <==> BandOf(id1) == BandOf(id2)
  {
  }

  /** The bands refine the layout: the first two bands are Zone A's ids, and the
      near-entrance and Zone B bands are exactly the priority slots. */
  lemma BandsMatchLayout(id: int)
    requires 1 <= id <= TotalSlots
    ensures BandOf(id).Rank() <= 1 <==> id <= 20
    ensures KindFor(id) == Priority <==> BandOf(id) in {NearEntrance, ZoneBFar}
  {
  }

  // ---------------------------------------------------------------------------
  // The whole-hour bill in the slot details
  // ---------------------------------------------------------------------------

  /** `Math.ceil(diffMs / 3600000) * rates[type]`. */
  function CurrentBill(elapsedMs: int, rate: real): real
  {
    CeilDiv(elapsedMs, MsPerHour) as real * rate
  }

  /** The whole-hour bill rounds once by the hour, the store rounds by the
      minute then by the hour; both give the same base for every elapsed time. */
  lemma CurrentBillIsChargedBase(v: Vehicle, rates: ParkingRates, extras: Store.Extras, discount: real,
                                 txId: string, now: int)
    ensures CurrentBill(now - v.entryTime, rates.RateFor(v.vehicleType))
         == Store.Settle(v, rates, extras, discount, txId, now).baseAmount
  {
    var ms := now - v.entryTime;
    Store.SettleMeaning(v, rates, extras, discount, txId, now);
    CeilDivNested(ms, MsPerMinute, MinutesPerHour);
    assert MsPerMinute * MinutesPerHour == MsPerHour;
    var h := CeilDiv(ms, MsPerHour);
    assert h == BillableHours(DurationMinutes(ms));
    assert CurrentBill(ms, rates.RateFor(v.vehicleType)) == BaseAmount(h, rates.RateFor(v.vehicleType));
  }

  /** What the slot details panel shows for a slot: the bill of the vehicle it
      names, or nothing for a free slot. */
  function SlotBill(slot: ParkingSlot, vs: seq<Vehicle>, rates: ParkingRates, now: int): (r: Option<real>)
    ensures r.Some? <==> SlotVehicle(slot, vs).Some?
  {
    match SlotVehicle(slot, vs)
    case None => None
    case Some(v) => Some(CurrentBill(now - v.entryTime, rates.RateFor(v.vehicleType)))
  }

  /** A checkout without extras or discount at a non-negative rate charges
      exactly the base, for any exit no earlier than the entry. */
  lemma QuickCheckoutChargesBase(v: Vehicle, rates: ParkingRates, txId: string, now: int)
    requires rates.NonNegative()
    requires now >= v.entryTime
    ensures var t := Store.Settle(v, rates, Store.NoExtras, 0.0, txId, now);
      t.finalAmount == t.baseAmount && t.extraAmount == 0.0 && t.discountAmount == 0.0
  {
    PlainChargeIsBase(now - v.entryTime, rates.RateFor(v.vehicleType));
  }

  // ---------------------------------------------------------------------------
  // The map's state
  // ---------------------------------------------------------------------------

  /** The quick-checkout receipt: plate, amount charged and minutes billed. */
  datatype Receipt = Receipt(plate: string, amount: real, duration: int)

  class MapView {
    var selectedSlot: Option<ParkingSlot>
    var showReceipt: Option<Receipt>
    var filter: SlotFilter

    constructor ()
      ensures selectedSlot == None && showReceipt == None && filter == AllSlots
    {
      selectedSlot := None;
      showReceipt := None;
      filter := AllSlots;
    }

    /** A filter button. */
    method SetFilter(f: SlotFilter)
      modifies this`filter
      ensures filter == f
    {
      filter := f;
    }

    /** `handleSlotClick`: open the details of `slot` and drop an old receipt. */
    method SlotClick(slot: ParkingSlot)
      modifies this
      ensures selectedSlot == Some(slot) && showReceipt == None && filter == old(filter)
    {
      selectedSlot := Some(slot);
      showReceipt := None;
    }

    /** The close button of the details panel. */
    method CloseDetails()
      modifies this`selectedSlot
      ensures selectedSlot == None
    {
      selectedSlot := None;
    }

    /** `handleQuickCheckout`: check the vehicle out with no extras and no
        discount and show what was charged; an unknown id changes nothing. */
    method QuickCheckout(ledger: Store.ParkingProvider, vehicleId: string, txId: string, logId: string, now: int)
      requires ledger.Valid()
      modifies this, ledger
      ensures ledger.Valid()
      ensures Store.FindVehicle(old(ledger.activeVehicles), vehicleId).None? ==>
        unchanged(this) && unchanged(ledger)
      ensures Store.FindVehicle(old(ledger.activeVehicles), vehicleId).Some? ==>
        var v := old(ledger.activeVehicles)[Store.FindVehicle(old(ledger.activeVehicles), vehicleId).value];
        var t := Store.Settle(v, old(ledger.rates), Store.NoExtras, 0.0, txId, now);
        && showReceipt == Some(Receipt(v.plateNumber, t.finalAmount, t.durationMinutes))
        && ledger.transactions == [t] + old(ledger.transactions)
        && t.finalAmount >= 0.0
        && ledger.State() == Store.AfterCheckout(old(ledger.State()), Store.FindVehicle(old(ledger.activeVehicles), vehicleId).value,
                                                 t, logId, now)
        && |ledger.activeVehicles| == |old(ledger.activeVehicles)| - 1
        && (old(ledger.rates).NonNegative() && now >= v.entryTime ==> showReceipt.value.amount == t.baseAmount)
        && selectedSlot == old(selectedSlot) && filter == old(filter)
    {
      var outcome := ledger.CheckoutVehicle(vehicleId, Store.NoExtras, 0.0, txId, logId, now);
      if outcome.Success? {
        var t := outcome.value;
        ghost var v := old(ledger.activeVehicles)[Store.FindVehicle(old(ledger.activeVehicles), vehicleId).value];
        Store.SettleMeaning(v, old(ledger.rates), Store.NoExtras, 0.0, txId, now);
        if old(ledger.rates).NonNegative() && now >= v.entryTime {
          QuickCheckoutChargesBase(v, old(ledger.rates), txId, now);
        }
        showReceipt := Some(Receipt(t.plateNumber, t.finalAmount, t.durationMinutes));
      }
    }
  }
}
