/** The parking ledger (store.tsx, `ParkingProvider`): forty slots, the active
    vehicles, the closed transactions, a capped activity log and the rate table,
    with the operations that replace them. Clock readings (`now`) and the random
    ids the source draws are parameters. */
module Store {
  import opened Wrappers
  import opened Types
  import opened Constants
  import opened Fees
  import Seqs
  import Text

  /** The activity log keeps at most this many entries. */
  const LogCap: nat := 50

  /** The registration form's data handed to `registerVehicle`. */
  datatype Registration = Registration(
    plate: string,
    vehicleType: VehicleType,
    model: string,
    color: string,
    contact: string,
    notes: Option<string>)

  /** Add-on services charged at checkout: their total price and their labels. */
  datatype Extras = Extras(amount: real, items: seq<string>)

  /** The default `extras` argument of `checkoutVehicle`. */
  const NoExtras: Extras := Extras(0.0, [])

  /** `checkoutVehicle` throws "Vehicle not found". */
  datatype CheckoutError = VehicleNotFound

  // ---------------------------------------------------------------------------
  // The invariant: slot occupancy matches the active vehicles
  // ---------------------------------------------------------------------------

  /** The fixed layout: slot `i` has id `i + 1` and its initial kind, and it is
      occupied exactly when it names a vehicle. */
  ghost predicate SlotLayout(slots: seq<ParkingSlot>)
  {
    && |slots| == TotalSlots
    && forall i :: 0 <= i < |slots| ==>
         && slots[i].id == i + 1
         && slots[i].kind == KindFor(i + 1)
         && (slots[i].isOccupied <==> slots[i].vehicleId.Some?)
  }

  /** No two active vehicles share an id, a plate or a slot. */
  ghost predicate DistinctVehicles(vs: seq<Vehicle>)
  {
    forall j, k :: 0 <= j < k < |vs| ==>
      && vs[j].id != vs[k].id
      && vs[j].plateNumber != vs[k].plateNumber
      && vs[j].slotId != vs[k].slotId
  }

  /** Active vehicle `k` is parked in a real slot, and that slot names it. */
  ghost predicate VehicleParked(slots: seq<ParkingSlot>, vs: seq<Vehicle>, k: int)
    requires 0 <= k < |vs|
  {
    1 <= vs[k].slotId <= |slots| && slots[vs[k].slotId - 1].vehicleId == Some(vs[k].id)
  }

  /** The vehicle slot `i` names, if any, is active and parked in slot `i`. */
  ghost predicate SlotHeld(slots: seq<ParkingSlot>, vs: seq<Vehicle>, i: int)
    requires 0 <= i < |slots|
  {
    slots[i].vehicleId.Some? ==>
      exists k :: 0 <= k < |vs| && vs[k].id == slots[i].vehicleId.value && vs[k].slotId == i + 1
  }

  /** Every active vehicle's slot names it, and every named vehicle is active
      and parked in that slot. */
  ghost predicate SlotsMatchVehicles(slots: seq<ParkingSlot>, vs: seq<Vehicle>)
  {
    && (forall k :: 0 <= k < |vs| ==> VehicleParked(slots, vs, k))
    && (forall i :: 0 <= i < |slots| ==> SlotHeld(slots, vs, i))
  }

  ghost predicate Consistent(slots: seq<ParkingSlot>, vs: seq<Vehicle>)
  {
    SlotLayout(slots) && DistinctVehicles(vs) && SlotsMatchVehicles(slots, vs)
  }

  /** The occupancy invariant read slot by slot: a slot is occupied by vehicle
      id `v` exactly when an active vehicle with id `v` is parked there. */
  lemma OccupiedIffActive(slots: seq<ParkingSlot>, vs: seq<Vehicle>, i: int, v: string)
    requires Consistent(slots, vs)
    requires 0 <= i < |slots|
    ensures (slots[i].isOccupied && slots[i].vehicleId == Some(v))
        <==> exists k :: 0 <= k < |vs| && vs[k].id == v && vs[k].slotId == slots[i].id
  {
    assert SlotHeld(slots, vs, i);
    if k :| 0 <= k < |vs| && vs[k].id == v && vs[k].slotId == slots[i].id {
      assert VehicleParked(slots, vs, k);
    }
  }

  // ---------------------------------------------------------------------------
  // The pieces of each transition
  // ---------------------------------------------------------------------------

  /** `[entry, ...logs].slice(0, 50)`: newest first, at most fifty entries. */
  function PushLog(logs: seq<ActivityLog>, entry: ActivityLog): (r: seq<ActivityLog>)
    ensures |r| <= LogCap
    ensures |r| == if |logs| < LogCap then |logs| + 1 else LogCap
    ensures r[0] == entry
    ensures r[1..] == logs[..|r| - 1]
  {
    ([entry] + logs)[..if |logs| < LogCap then |logs| + 1 else LogCap]
  }

  /** `activeVehicles.some(v => v.plateNumber === plate)`. */
  predicate PlateTaken(vs: seq<Vehicle>, plate: string)
  {
    exists k | 0 <= k < |vs| :: vs[k].plateNumber == plate
  }

  /** `activeVehicles.find(v => v.id === id)`, as a position. */
  function FindVehicle(vs: seq<Vehicle>, id: string): (r: Option<nat>)
    ensures r.Some? ==> r.value < |vs| && vs[r.value].id == id
    ensures r.None? <==> forall k :: 0 <= k < |vs| ==> vs[k].id != id
  {
    Seqs.FindIndex(vs, (v: Vehicle) => v.id == id)
  }

  /** A requested slot id counts only when it is truthy (present and not 0). */
  predicate SlotRequested(slotId: Option<int>)
  {
    slotId.Some? && slotId.value != 0
  }

  /** The slot `registerVehicle` takes: with a requested id, the free slot with
      that id (no fallback); without one, the first free slot in array order. */
  function ChooseSlot(slots: seq<ParkingSlot>, slotId: Option<int>): (r: Option<nat>)
    ensures r.Some? ==> r.value < |slots| && !slots[r.value].isOccupied
    ensures SlotRequested(slotId) ==>
      && (r.Some? ==> slots[r.value].id == slotId.value)
      && (r.None? <==> forall i :: 0 <= i < |slots| ==> slots[i].id != slotId.value || slots[i].isOccupied)
    ensures !SlotRequested(slotId) ==>
      && (r.Some? ==> forall i :: 0 <= i < r.value ==> slots[i].isOccupied)
      && (r.None? <==> forall i :: 0 <= i < |slots| ==> slots[i].isOccupied)
  {
    if SlotRequested(slotId) then
      Seqs.FindIndex(slots, (s: ParkingSlot) => s.id == slotId.value && !s.isOccupied)
    else
      Seqs.FindIndex(slots, (s: ParkingSlot) => !s.isOccupied)
  }

  /** `model || 'Unknown'`. */
  function OrUnknown(s: string): string
  {
    if s == "" then "Unknown" else s
  }

  /** The record `registerVehicle` creates. */
  function NewVehicle(data: Registration, id: string, slotId: int, now: int): Vehicle
  {
    Vehicle(id, Text.Upper(data.plate), data.vehicleType, OrUnknown(data.model), OrUnknown(data.color),
            now, slotId, Some(data.contact), data.notes)
  }

  /** `slots.map(s => s.id === slotId ? { ...s, isOccupied: true, vehicleId } : s)`. */
  function OccupySlot(slots: seq<ParkingSlot>, slotId: int, vehicleId: string): (r: seq<ParkingSlot>)
    ensures |r| == |slots|
    ensures forall i :: 0 <= i < |r| ==> r[i].id == slots[i].id && r[i].kind == slots[i].kind
    ensures forall i :: 0 <= i < |r| && slots[i].id == slotId ==> r[i].isOccupied && r[i].vehicleId == Some(vehicleId)
    ensures forall i :: 0 <= i < |r| && slots[i].id != slotId ==> r[i] == slots[i]
  {
    seq(|slots|, i requires 0 <= i < |slots| =>
      if slots[i].id == slotId then slots[i].(isOccupied := true, vehicleId := Some(vehicleId)) else slots[i])
  }

  /** `slots.map(s => s.id === slotId ? { ...s, isOccupied: false, vehicleId: null } : s)`. */
  function ReleaseSlot(slots: seq<ParkingSlot>, slotId: int): (r: seq<ParkingSlot>)
    ensures |r| == |slots|
    ensures forall i :: 0 <= i < |r| ==> r[i].id == slots[i].id && r[i].kind == slots[i].kind
    ensures forall i :: 0 <= i < |r| && slots[i].id == slotId ==> !r[i].isOccupied && r[i].vehicleId == None
    ensures forall i :: 0 <= i < |r| && slots[i].id != slotId ==> r[i] == slots[i]
  {
    seq(|slots|, i requires 0 <= i < |slots| =>
      if slots[i].id == slotId then slots[i].(isOccupied := false, vehicleId := None) else slots[i])
  }

  function KeepOthers(id: string): Vehicle -> bool
  {
    (v: Vehicle) => v.id != id
  }

  /** `activeVehicles.filter(v => v.id !== id)`. */
  function RemoveVehicle(vs: seq<Vehicle>, id: string): seq<Vehicle>
  {
    Seqs.Filter(vs, KeepOthers(id))
  }

  /** With distinct ids, removing a vehicle's id removes exactly that vehicle. */
  lemma RemoveUniqueVehicle(vs: seq<Vehicle>, k: nat)
    requires DistinctVehicles(vs)
    requires k < |vs|
    ensures RemoveVehicle(vs, vs[k].id) == vs[..k] + vs[k + 1..]
  {
    forall i | 0 <= i < |vs|
      ensures KeepOthers(vs[k].id)(vs[i]) <==> i != k
    {
      if i < k {
        assert vs[i].id != vs[k].id;
      } else if k < i {
        assert vs[k].id != vs[i].id;
      }
    }
    Seqs.FilterDropsOne(vs, KeepOthers(vs[k].id), k);
  }

  /** The transaction `checkoutVehicle` records for vehicle `v` leaving at `now`. */
  function Settle(v: Vehicle, rates: ParkingRates, extras: Extras, discount: real, txId: string, now: int)
    : Transaction
  {
    var c := ChargeFor(now - v.entryTime, rates.RateFor(v.vehicleType), extras.amount, discount);
    Transaction(txId, v.id, v.plateNumber, v.vehicleType, v.entryTime, now, c.durationMinutes,
                c.baseAmount, extras.amount, discount, c.finalAmount, Paid, Some(extras.items))
  }

  /** A settled transaction carries the vehicle's identity and entry time, bills
      whole minutes rounded up and then whole hours rounded up at the vehicle's
      rate, and charges `max(0, base + extras - discount)`. */
  lemma SettleMeaning(v: Vehicle, rates: ParkingRates, extras: Extras, discount: real, txId: string, now: int)
    ensures var t := Settle(v, rates, extras, discount, txId, now);
      && t.id == txId && t.vehicleId == v.id && t.plateNumber == v.plateNumber
      && t.vehicleType == v.vehicleType && t.entryTime == v.entryTime && t.exitTime == now
      && t.durationMinutes == DurationMinutes(now - v.entryTime)
      && t.baseAmount == BaseAmount(BillableHours(t.durationMinutes), rates.RateFor(v.vehicleType))
      && MsPerMinute * (t.durationMinutes - 1) < now - v.entryTime <= MsPerMinute * t.durationMinutes
      && t.baseAmount == BillableHours(t.durationMinutes) as real * rates.RateFor(v.vehicleType)
      && MinutesPerHour * (BillableHours(t.durationMinutes) - 1) < t.durationMinutes
      && t.durationMinutes <= MinutesPerHour * BillableHours(t.durationMinutes)
      && t.extraAmount == extras.amount && t.discountAmount == discount
      && t.finalAmount >= 0.0
      && (t.baseAmount + t.extraAmount - t.discountAmount >= 0.0 ==>
            t.finalAmount == t.baseAmount + t.extraAmount - t.discountAmount)
      && (t.baseAmount + t.extraAmount - t.discountAmount < 0.0 ==> t.finalAmount == 0.0)
      && t.status == Paid && t.items == Some(extras.items)
  {
    ChargeMeaning(now - v.entryTime, rates.RateFor(v.vehicleType), extras.amount, discount);
  }

  function EntryMessage(plate: string, slotId: int): string
  {
    "Vehicle " + plate + " checked in at Slot " + Text.IntToString(slotId)
  }

  function ExitMessage(plate: string, amount: real): string
    requires amount >= 0.0
  {
    "Vehicle " + plate + " checked out. Rev: $" + Text.ToFixed2(amount)
  }

  const RatesMessage: string := "Parking rates updated by admin"
  const ResetMessage: string := "System reset initiated by admin"

  // ---------------------------------------------------------------------------
  // The whole ledger, before and after each successful transition
  // ---------------------------------------------------------------------------

  /** The provider's state as one value. */
  datatype Ledger = Ledger(slots: seq<ParkingSlot>, activeVehicles: seq<Vehicle>, transactions: seq<Transaction>,
                           recentLogs: seq<ActivityLog>, rates: ParkingRates)

  /** Every settled amount is clamped at zero. */
  predicate SettledAmounts(ts: seq<Transaction>)
  {
    forall i :: 0 <= i < |ts| ==> ts[i].finalAmount >= 0.0
  }

  /** A successful `registerVehicle` of `v`: park it first in the list, occupy
      its slot and log the entry; transactions and rates stay. */
  function AfterRegister(l: Ledger, v: Vehicle, logId: string, now: int): Ledger
  {
    l.(activeVehicles := [v] + l.activeVehicles,
       slots := OccupySlot(l.slots, v.slotId, v.id),
       recentLogs := PushLog(l.recentLogs,
                             ActivityLog(logId, Entry, EntryMessage(v.plateNumber, v.slotId), now, Some(v.plateNumber))))
  }

  /** A successful `checkoutVehicle` of the vehicle at position `k`, settled as
      `t`: record `t`, drop the vehicle, free its slot and log the exit; the
      rates stay. */
  function AfterCheckout(l: Ledger, k: nat, t: Transaction, logId: string, now: int): Ledger
    requires k < |l.activeVehicles|
    requires t.finalAmount >= 0.0
  {
    var v := l.activeVehicles[k];
    l.(transactions := [t] + l.transactions,
       activeVehicles := RemoveVehicle(l.activeVehicles, v.id),
       slots := ReleaseSlot(l.slots, v.slotId),
       recentLogs := PushLog(l.recentLogs,
                             ActivityLog(logId, Exit, ExitMessage(v.plateNumber, t.finalAmount), now, Some(v.plateNumber))))
  }

  /** `updateRates`: replace the table and log it; slots, vehicles and
      transactions stay. */
  function AfterRatesUpdate(l: Ledger, newRates: ParkingRates, logId: string, now: int): Ledger
  {
    l.(rates := newRates,
       recentLogs := PushLog(l.recentLogs, ActivityLog(logId, System, RatesMessage, now, None)))
  }

  // ---------------------------------------------------------------------------
  // Each transition keeps the invariant
  // ---------------------------------------------------------------------------

  /** The untouched layout, with no vehicles, is consistent. */
  lemma InitialConsistent()
    ensures Consistent(InitialSlots(), [])
  {
  }

  /** The two demonstration vehicles seeded on mount. */
  function DemoVehicles(now: int): seq<Vehicle>
  {
    [ Vehicle("v1", "ABC-1234", Car, "Toyota Camry", "Silver", now - 3600000, 1, None, None),
      Vehicle("v2", "XYZ-9876", Bike, "Honda CBR", "Red", now - 7200000, 7, None, None) ]
  }

  /** The initial layout with slots 1 and 7 taken by the demonstration vehicles. */
  function DemoSlots(): seq<ParkingSlot>
  {
    var s := InitialSlots();
    s[0 := s[0].(isOccupied := true, vehicleId := Some("v1"))]
     [6 := s[6].(isOccupied := true, vehicleId := Some("v2"))]
  }

  function DemoLogs(now: int): seq<ActivityLog>
  {
    [ ActivityLog("l1", Entry, "Vehicle ABC-1234 checked in", now - 3600000, Some("ABC-1234")),
      ActivityLog("l2", Entry, "Vehicle XYZ-9876 checked in", now - 7200000, Some("XYZ-9876")) ]
  }

  /** The seeded demonstration state satisfies the invariant. */
  lemma DemoConsistent(now: int)
    ensures Consistent(DemoSlots(), DemoVehicles(now))
  {
    var s, vs := DemoSlots(), DemoVehicles(now);
    assert "v1" != "v2";
    forall i | 0 <= i < |s| && s[i].vehicleId.Some?
      ensures exists k :: 0 <= k < |vs| && vs[k].id == s[i].vehicleId.value && vs[k].slotId == i + 1
    {
      if i == 0 {
        assert vs[0].id == s[i].vehicleId.value && vs[0].slotId == i + 1;
      } else {
        assert i == 6;
        assert vs[1].id == s[i].vehicleId.value && vs[1].slotId == i + 1;
      }
    }
  }

  /** Registering a vehicle with a fresh id and an unused plate into a free slot
      keeps slots and vehicles consistent. */
  lemma RegisterPreservesConsistency(slots: seq<ParkingSlot>, vs: seq<Vehicle>, c: nat, v: Vehicle)
    requires Consistent(slots, vs)
    requires c < |slots| && !slots[c].isOccupied
    requires v.slotId == slots[c].id
    requires forall k :: 0 <= k < |vs| ==> vs[k].id != v.id && vs[k].plateNumber != v.plateNumber
    ensures Consistent(OccupySlot(slots, v.slotId, v.id), [v] + vs)
  {
    OccupyKeepsLayout(slots, c, v.id);
    forall k | 0 <= k < |vs|
      ensures vs[k].slotId != v.slotId
    {
      assert VehicleParked(slots, vs, k);
    }
    PrependKeepsDistinct(vs, v);
    OccupyKeepsMatch(slots, vs, c, v);
  }

  /** Occupying a free slot keeps the layout and changes only that slot. */
  lemma OccupyKeepsLayout(slots: seq<ParkingSlot>, c: nat, id: string)
    requires SlotLayout(slots)
    requires c < |slots| && !slots[c].isOccupied
    ensures var s' := OccupySlot(slots, c + 1, id);
      && SlotLayout(s')
      && s'[c] == slots[c].(isOccupied := true, vehicleId := Some(id))
      && forall i :: 0 <= i < |s'| && i != c ==> s'[i] == slots[i]
  {
    var s' := OccupySlot(slots, c + 1, id);
    forall i | 0 <= i < |s'|
      ensures s'[i] == if i == c then slots[c].(isOccupied := true, vehicleId := Some(id)) else slots[i]
    {
      assert slots[i].id == i + 1;
    }
  }

  /** A vehicle whose id, plate and slot are new keeps the vehicles distinct. */
  lemma PrependKeepsDistinct(vs: seq<Vehicle>, v: Vehicle)
    requires DistinctVehicles(vs)
    requires forall k :: 0 <= k < |vs| ==>
      vs[k].id != v.id && vs[k].plateNumber != v.plateNumber && vs[k].slotId != v.slotId
    ensures DistinctVehicles([v] + vs)
  {
    var vs' := [v] + vs;
    forall j, k | 0 <= j < k < |vs'|
      ensures vs'[j].id != vs'[k].id && vs'[j].plateNumber != vs'[k].plateNumber
      ensures vs'[j].slotId != vs'[k].slotId
    {
      assert vs'[k] == vs[k - 1];
      if j > 0 {
        assert vs'[j] == vs[j - 1];
      }
    }
  }

  /** Slot `c` now names the new vehicle, and every other pairing stays. */
  lemma OccupyKeepsMatch(slots: seq<ParkingSlot>, vs: seq<Vehicle>, c: nat, v: Vehicle)
    requires SlotLayout(slots) && SlotsMatchVehicles(slots, vs)
    requires c < |slots| && !slots[c].isOccupied && v.slotId == c + 1
    requires forall k :: 0 <= k < |vs| ==> vs[k].slotId != v.slotId
    ensures SlotsMatchVehicles(OccupySlot(slots, v.slotId, v.id), [v] + vs)
  {
    var s', vs' := OccupySlot(slots, v.slotId, v.id), [v] + vs;
    OccupyKeepsLayout(slots, c, v.id);
    forall k | 0 <= k < |vs'|
      ensures VehicleParked(s', vs', k)
    {
      if k > 0 {
        assert vs'[k] == vs[k - 1];
        assert VehicleParked(slots, vs, k - 1);
      }
    }
    forall i | 0 <= i < |s'|
      ensures SlotHeld(s', vs', i)
    {
      if i == c {
        assert vs'[0].id == s'[i].vehicleId.value && vs'[0].slotId == i + 1;
      } else if s'[i].vehicleId.Some? {
        assert SlotHeld(slots, vs, i);
        var k :| 0 <= k < |vs| && vs[k].id == slots[i].vehicleId.value && vs[k].slotId == i + 1;
        assert vs'[k + 1] == vs[k];
      }
    }
  }

  /** Checking out the active vehicle at position `k` and freeing its slot keeps
      slots and vehicles consistent. */
  lemma {:induction false} CheckoutPreservesConsistency(slots: seq<ParkingSlot>, vs: seq<Vehicle>, k: nat)
    requires Consistent(slots, vs)
    requires k < |vs|
    ensures 1 <= vs[k].slotId <= |slots|
    ensures Consistent(ReleaseSlot(slots, vs[k].slotId), vs[..k] + vs[k + 1..])
  {
    assert VehicleParked(slots, vs, k);
    var x := vs[k].slotId - 1;
    var s', vs' := ReleaseSlot(slots, vs[k].slotId), vs[..k] + vs[k + 1..];
    assert |vs'| == |vs| - 1;
    forall m | 0 <= m < |vs'|
      ensures vs'[m] == vs[if m < k then m else m + 1]
    {
    }
    forall i | 0 <= i < |s'| && i != x
      ensures s'[i] == slots[i]
    {
    }
    assert s'[x] == slots[x].(isOccupied := false, vehicleId := None);
    assert SlotLayout(s');
    assert DistinctVehicles(vs') by {
      forall j, m | 0 <= j < m < |vs'|
        ensures vs'[j].id != vs'[m].id && vs'[j].plateNumber != vs'[m].plateNumber
        ensures vs'[j].slotId != vs'[m].slotId
      {
        var j0, m0 := if j < k then j else j + 1, if m < k then m else m + 1;
        assert vs'[j] == vs[j0] && vs'[m] == vs[m0] && j0 < m0;
      }
    }
    forall m | 0 <= m < |vs'|
      ensures VehicleParked(s', vs', m)
    {
      var m0 := if m < k then m else m + 1;
      assert vs'[m] == vs[m0] && m0 != k;
      assert VehicleParked(slots, vs, m0);
      assert vs[m0].slotId != vs[k].slotId;
    }
    forall i | 0 <= i < |s'|
      ensures SlotHeld(s', vs', i)
    {
      if s'[i].vehicleId.Some? {
        assert i != x;
        assert SlotHeld(slots, vs, i);
        var m0 :| 0 <= m0 < |vs| && vs[m0].id == slots[i].vehicleId.value && vs[m0].slotId == i + 1;
        assert m0 != k;
        var m := if m0 < k then m0 else m0 - 1;
        assert vs'[m] == vs[m0];
      }
    }
  }

  /** With the layout in place, looking a slot up by id finds position `id - 1`. */
  lemma SlotLookup(slots: seq<ParkingSlot>, slotId: int)
    requires SlotLayout(slots)
    ensures SlotById(slots, slotId) == if 1 <= slotId <= TotalSlots then Some(slots[slotId - 1]) else None
  {
    if 1 <= slotId <= TotalSlots {
      assert slots[slotId - 1].id == slotId;
    }
  }

  /** `slots.find(s => s.id === slotId)`. */
  function SlotById(slots: seq<ParkingSlot>, slotId: int): (r: Option<ParkingSlot>)
    ensures r.Some? ==> r.value in slots && r.value.id == slotId
    ensures r.None? <==> forall i :: 0 <= i < |slots| ==> slots[i].id != slotId
  {
    match Seqs.FindIndex(slots, (s: ParkingSlot) => s.id == slotId)
    case None => None
    case Some(i) => Some(slots[i])
  }

  // ---------------------------------------------------------------------------
  // The provider's state and its operations
  // ---------------------------------------------------------------------------

  class ParkingProvider {
    var slots: seq<ParkingSlot>
    var activeVehicles: seq<Vehicle>
    var transactions: seq<Transaction>
    var recentLogs: seq<ActivityLog>
    var rates: ParkingRates

    ghost predicate Valid()
      reads this
    {
      Consistent(slots, activeVehicles) && SettledAmounts(transactions) && |recentLogs| <= LogCap
    }

    /** The five state fields as one value. */
    function State(): Ledger
      reads this
    {
      Ledger(slots, activeVehicles, transactions, recentLogs, rates)
    }

    /** The `useState` initial values. */
    constructor ()
      ensures Valid()
      ensures slots == InitialSlots() && activeVehicles == [] && transactions == []
      ensures recentLogs == [] && rates == DefaultRates
    {
      slots := InitialSlots();
      activeVehicles := [];
      transactions := [];
      recentLogs := [];
      rates := DefaultRates;
      InitialConsistent();
    }

    /** The mount effect: with no vehicles and no transactions, park the two
        demonstration vehicles in slots 1 and 7 and replace the log. */
    method SeedDemoData(now: int)
      requires Valid()
      modifies this
      ensures Valid()
      ensures old(activeVehicles) == [] && old(transactions) == [] ==>
        && activeVehicles == DemoVehicles(now)
        && slots == DemoSlots()
        && recentLogs == DemoLogs(now)
        && transactions == old(transactions) && rates == old(rates)
      ensures !(old(activeVehicles) == [] && old(transactions) == []) ==> unchanged(this)
    {
      if activeVehicles == [] && transactions == [] {
        DemoConsistent(now);
        activeVehicles := DemoVehicles(now);
        slots := DemoSlots();
        recentLogs := DemoLogs(now);
      }
    }

    /** `addLog`: prepend one entry and keep the newest fifty. */
    method AddLog(logId: string, message: string, kind: ActivityType, plate: Option<string>, now: int)
      requires Valid()
      modifies this`recentLogs
      ensures Valid()
      ensures recentLogs == PushLog(old(recentLogs), ActivityLog(logId, kind, message, now, plate))
    {
      recentLogs := PushLog(recentLogs, ActivityLog(logId, kind, message, now, plate));
    }

    /** `updateRates`: replace the rate table and log one system entry. */
    method UpdateRates(newRates: ParkingRates, logId: string, now: int)
      requires Valid()
      modifies this
      ensures Valid()
      ensures rates == newRates
      ensures recentLogs == PushLog(old(recentLogs), ActivityLog(logId, System, RatesMessage, now, None))
      ensures slots == old(slots) && activeVehicles == old(activeVehicles)
      ensures transactions == old(transactions)
      ensures State() == AfterRatesUpdate(old(State()), newRates, logId, now)
    {
      rates := newRates;
      AddLog(logId, RatesMessage, System, None, now);
    }

    /** `registerVehicle`: refuse a plate already parked, take the requested free
        slot or else the first free one, and park a new vehicle there. */
    method RegisterVehicle(data: Registration, slotId: Option<int>, newId: string, logId: string, now: int)
      returns (r: Option<Vehicle>)
      requires Valid()
      requires forall k :: 0 <= k < |activeVehicles| ==> activeVehicles[k].id != newId
      modifies this
      ensures Valid()
      ensures r.None? <==>
        PlateTaken(old(activeVehicles), Text.Upper(data.plate)) || ChooseSlot(old(slots), slotId).None?
      ensures r.None? ==> unchanged(this)
      ensures r.Some? ==>
        var c := ChooseSlot(old(slots), slotId).value;
        var v := r.value;
        && v == NewVehicle(data, newId, old(slots)[c].id, now)
        && v.id == newId && v.plateNumber == Text.Upper(data.plate) && v.slotId == c + 1
        && v.model == (if data.model == "" then "Unknown" else data.model)
        && v.color == (if data.color == "" then "Unknown" else data.color)
        && v.entryTime == now
        && activeVehicles == [v] + old(activeVehicles)
        && slots == OccupySlot(old(slots), v.slotId, newId)
        && slots[c] == old(slots)[c].(isOccupied := true, vehicleId := Some(newId))
        && (forall i :: 0 <= i < |slots| && i != c ==> slots[i] == old(slots)[i])
        && recentLogs == PushLog(old(recentLogs),
                                 ActivityLog(logId, Entry, EntryMessage(v.plateNumber, v.slotId), now, Some(v.plateNumber)))
        && transactions == old(transactions) && rates == old(rates)
      ensures r.Some? ==> State() == AfterRegister(old(State()), r.value, logId, now)
    {
      var plate := Text.Upper(data.plate);
      if PlateTaken(activeVehicles, plate) {
        return None;
      }
      var target := ChooseSlot(slots, slotId);
      if target.None? {
        return None;
      }
      var c := target.value;
      var v := NewVehicle(data, newId, slots[c].id, now);
      RegisterPreservesConsistency(slots, activeVehicles, c, v);
      slots := OccupySlot(slots, v.slotId, newId);
      activeVehicles := [v] + activeVehicles;
      AddLog(logId, EntryMessage(v.plateNumber, v.slotId), Entry, Some(v.plateNumber), now);
      r := Some(v);
    }

    /** `checkoutVehicle`: fail when the id is not active; otherwise record one
        transaction, remove exactly that vehicle and free exactly its slot. */
    method CheckoutVehicle(vehicleId: string, extras: Extras, discount: real, txId: string, logId: string, now: int)
      returns (r: Result<Transaction, CheckoutError>)
      requires Valid()
      modifies this
      ensures Valid()
      ensures FindVehicle(old(activeVehicles), vehicleId).None? ==>
        r == Failure(VehicleNotFound) && unchanged(this)
      ensures FindVehicle(old(activeVehicles), vehicleId).Some? ==>
        var k := FindVehicle(old(activeVehicles), vehicleId).value;
        var v := old(activeVehicles)[k];
        var t := Settle(v, old(rates), extras, discount, txId, now);
        && r == Success(t)
        && transactions == [t] + old(transactions)
        && activeVehicles == old(activeVehicles)[..k] + old(activeVehicles)[k + 1..]
        && activeVehicles == RemoveVehicle(old(activeVehicles), vehicleId)
        && slots == ReleaseSlot(old(slots), v.slotId)
        && 1 <= v.slotId <= |slots|
        && slots[v.slotId - 1] == old(slots)[v.slotId - 1].(isOccupied := false, vehicleId := None)
        && (forall i :: 0 <= i < |slots| && i != v.slotId - 1 ==> slots[i] == old(slots)[i])
        && recentLogs == PushLog(old(recentLogs),
                                 ActivityLog(logId, Exit, ExitMessage(v.plateNumber, t.finalAmount), now, Some(v.plateNumber)))
        && rates == old(rates)
        && t.finalAmount >= 0.0
        && State() == AfterCheckout(old(State()), k, t, logId, now)
    {
      var found := FindVehicle(activeVehicles, vehicleId);
      if found.None? {
        return Failure(VehicleNotFound);
      }
      var k := found.value;
      var v := activeVehicles[k];
      var t := Settle(v, rates, extras, discount, txId, now);
      SettleMeaning(v, rates, extras, discount, txId, now);
      CheckoutPreservesConsistency(slots, activeVehicles, k);
      RemoveUniqueVehicle(activeVehicles, k);
      transactions := [t] + transactions;
      activeVehicles := RemoveVehicle(activeVehicles, vehicleId);
      slots := ReleaseSlot(slots, v.slotId);
      AddLog(logId, ExitMessage(v.plateNumber, t.finalAmount), Exit, Some(v.plateNumber), now);
      r := Success(t);
    }

    /** `getSlotStatus`. */
    function GetSlotStatus(slotId: int): (r: Option<ParkingSlot>)
      reads this
      requires Valid()
      ensures r.Some? <==> 1 <= slotId <= TotalSlots
      ensures r.Some? ==> r.value == slots[slotId - 1]
    {
      SlotLookup(slots, slotId);
      SlotById(slots, slotId)
    }

    /** `resetSystem`: restore the initial slots and rates, drop every vehicle,
        transaction and log entry, then log the reset. */
    method ResetSystem(logId: string, now: int)
      requires Valid()
      modifies this
      ensures Valid()
      ensures slots == InitialSlots() && activeVehicles == [] && transactions == []
      ensures rates == DefaultRates
      ensures recentLogs == [ActivityLog(logId, System, ResetMessage, now, None)]
    {
      InitialConsistent();
      slots := InitialSlots();
      activeVehicles := [];
      transactions := [];
      recentLogs := [];
      rates := DefaultRates;
      AddLog(logId, ResetMessage, System, None, now);
    }
  }
}
