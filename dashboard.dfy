/** The dashboard figures (components/Dashboard.tsx): occupancy, availability,
    occupancy rate, today's revenue, the chart's last revenue point and the
    vehicle mix. The current branch comes from outside the store and is a
    parameter; so is local-time day bucketing. */
module Dashboard {
  import opened Wrappers
  import opened Types
  import Seqs
  import Fees
  import Store

  /** What the dashboard reads of the current branch: its id and capacity. */
  datatype BranchInfo = BranchInfo(id: string, capacity: int)

  /** `currentBranch?.id === 'all'`. */
  predicate IsOverview(branch: Option<BranchInfo>)
  {
    branch.Some? && branch.value.id == "all"
  }

  function IsTaken(): ParkingSlot -> bool
  {
    (s: ParkingSlot) => s.isOccupied
  }

  /** `slots.filter(s => s.isOccupied).length`. */
  function OccupiedSlotCount(slots: seq<ParkingSlot>): nat
  {
    |Seqs.Filter(slots, IsTaken())|
  }

  /** `occupiedCount`: the active vehicles in the overview, otherwise the
      occupied slots. */
  function OccupiedCount(branch: Option<BranchInfo>, slots: seq<ParkingSlot>, vs: seq<Vehicle>): nat
  {
    if IsOverview(branch) then |vs| else OccupiedSlotCount(slots)
  }

  /** `currentBranch?.capacity || 0`: a missing or zero capacity is 0. */
  function Capacity(branch: Option<BranchInfo>): int
  {
    if branch.Some? && branch.value.capacity != 0 then branch.value.capacity else 0
  }

  /** `availableCount`, not clamped: it goes negative when more vehicles are
      counted than the branch holds. */
  function AvailableCount(branch: Option<BranchInfo>, slots: seq<ParkingSlot>, vs: seq<Vehicle>): (r: int)
    ensures r >= 0 <==> OccupiedCount(branch, slots, vs) <= Capacity(branch)
    ensures r + OccupiedCount(branch, slots, vs) == Capacity(branch)
  {
    Capacity(branch) - OccupiedCount(branch, slots, vs)
  }

  /** `occupancyRate`: the rounded percentage, 0 without a positive capacity. */
  function OccupancyRate(occupied: int, total: int): int
  {
    if total > 0 then Fees.JsRound(occupied as real / total as real * 100.0) else 0
  }

  /** With no more occupied than the capacity the rate is a percentage: empty
      is 0 and full is 100. */
  lemma OccupancyRateBounds(occupied: int, total: int)
    requires 0 <= occupied <= total
    ensures 0 <= OccupancyRate(occupied, total) <= 100
    ensures occupied == 0 ==> OccupancyRate(occupied, total) == 0
    ensures 0 < occupied == total ==> OccupancyRate(occupied, total) == 100
  {
    if total > 0 {
      var x := occupied as real / total as real;
      assert 0.0 <= x <= 1.0 by {
        assert occupied as real <= total as real;
      }
      if occupied == total {
        assert x == 1.0;
      }
    }
  }

  // ---------------------------------------------------------------------------
  // Occupied slots against active vehicles
  // ---------------------------------------------------------------------------

  /** Two slot rows with the same occupancy flags have the same occupied count. */
  lemma {:induction false} SameFlagsSameCount(s: seq<ParkingSlot>, t: seq<ParkingSlot>)
    requires |s| == |t|
    requires forall i :: 0 <= i < |s| ==> s[i].isOccupied == t[i].isOccupied
    ensures OccupiedSlotCount(s) == OccupiedSlotCount(t)
  {
    if s != [] {
      SameFlagsSameCount(s[1..], t[1..]);
    }
  }

  /** Freeing one occupied slot and changing no other flag lowers the count by one. */
  lemma {:induction false} FreeingOneSlot(s: seq<ParkingSlot>, t: seq<ParkingSlot>, j: nat)
    requires |s| == |t| && j < |s|
    requires s[j].isOccupied && !t[j].isOccupied
    requires forall i :: 0 <= i < |s| && i != j ==> s[i].isOccupied == t[i].isOccupied
    ensures OccupiedSlotCount(s) == OccupiedSlotCount(t) + 1
  {
    if j == 0 {
      SameFlagsSameCount(s[1..], t[1..]);
    } else {
      FreeingOneSlot(s[1..], t[1..], j - 1);
    }
  }

  /** On a consistent ledger the occupied slots are exactly as many as the
      active vehicles, so the overview and the per-branch count agree. */
  lemma {:induction false} OccupiedSlotsAreActiveVehicles(slots: seq<ParkingSlot>, vs: seq<Vehicle>)
    requires Store.Consistent(slots, vs)
    ensures OccupiedSlotCount(slots) == |vs|
    decreases |vs|
  {
    if vs == [] {
      forall i | 0 <= i < |slots|
        ensures !IsTaken()(slots[i])
      {
        assert Store.SlotHeld(slots, vs, i);
      }
      Seqs.FilterNone(slots, IsTaken());
    } else {
      var k := |vs| - 1;
      var j := vs[k].slotId - 1;
      Store.CheckoutPreservesConsistency(slots, vs, k);
      assert Store.VehicleParked(slots, vs, k);
      var freed := Store.ReleaseSlot(slots, vs[k].slotId);
      assert vs[..k] + vs[k + 1..] == vs[..k];
      OccupiedSlotsAreActiveVehicles(freed, vs[..k]);
      forall i | 0 <= i < |slots| && i != j
        ensures slots[i].isOccupied == freed[i].isOccupied
      {
        assert slots[i].id == i + 1;
      }
      assert slots[j].id == j + 1;
      FreeingOneSlot(slots, freed, j);
    }
  }

  /** Hence on a consistent ledger the occupied count does not depend on the
      branch view. */
  lemma OccupiedCountAgrees(branch: Option<BranchInfo>, slots: seq<ParkingSlot>, vs: seq<Vehicle>)
    requires Store.Consistent(slots, vs)
    ensures OccupiedCount(branch, slots, vs) == |vs|
  {
    OccupiedSlotsAreActiveVehicles(slots, vs);
  }

  // ---------------------------------------------------------------------------
  // Revenue
  // ---------------------------------------------------------------------------

  function Amount(t: Transaction): real
  {
    t.finalAmount
  }

  function ExitedOn(day: int -> int, today: int): Transaction -> bool
  {
    (t: Transaction) => day(t.exitTime) == today
  }

  function TodayAmount(day: int -> int, today: int): Transaction -> real
  {
    (t: Transaction) => if day(t.exitTime) == today then t.finalAmount else 0.0
  }

  /** `todayRevenue`: the amounts of the transactions whose exit falls on the
      same local day as `now`. */
  function TodayRevenue(ts: seq<Transaction>, day: int -> int, now: int): real
  {
    Seqs.Sum(Seqs.Filter(ts, ExitedOn(day, day(now))), Amount)
  }

  /** Today's revenue counts each of today's exits once and nothing else, and
      with clamped amounts it lies between zero and the revenue of all time. */
  lemma TodayRevenueMeaning(ts: seq<Transaction>, day: int -> int, now: int)
    requires forall i :: 0 <= i < |ts| ==> ts[i].finalAmount >= 0.0
    ensures TodayRevenue(ts, day, now) == Seqs.Sum(ts, TodayAmount(day, day(now)))
    ensures 0.0 <= TodayRevenue(ts, day, now) <= Seqs.Sum(ts, Amount)
  {
    Seqs.SumFilter(ts, ExitedOn(day, day(now)), Amount, TodayAmount(day, day(now)));
    forall i | 0 <= i < |ts|
      ensures 0.0 <= TodayAmount(day, day(now))(ts[i]) <= Amount(ts[i])
    {
    }
    Seqs.SumNonNegative(ts, TodayAmount(day, day(now)));
    Seqs.SumMonotone(ts, TodayAmount(day, day(now)), Amount);
  }

  /** Today's revenue over the ledger's own history lies between zero and the
      revenue of all time, since the ledger only records clamped amounts. */
  lemma LedgerTodayRevenue(ledger: Store.ParkingProvider, day: int -> int, now: int)
    requires ledger.Valid()
    ensures 0.0 <= TodayRevenue(ledger.transactions, day, now) <= Seqs.Sum(ledger.transactions, Amount)
  {
    TodayRevenueMeaning(ledger.transactions, day, now);
  }

  /** `currentRevenueMock`: the real figure when positive, otherwise 150. */
  function CurrentRevenueMock(actual: real): (r: real)
    ensures r > 0.0
    ensures actual > 0.0 ==> r == actual
  {
    if actual > 0.0 then actual else 150.0
  }

  // ---------------------------------------------------------------------------
  // Vehicle mix
  // ---------------------------------------------------------------------------

  function OfType(t: VehicleType): Vehicle -> bool
  {
    (v: Vehicle) => v.vehicleType == t
  }

  /** `activeVehicles.filter(v => v.type === t).length`. */
  function TypeCount(vs: seq<Vehicle>, t: VehicleType): nat
  {
    |Seqs.Filter(vs, OfType(t))|
  }

  /** The three slices of the vehicle-mix chart add up to the active vehicles. */
  lemma {:induction false} TypeCountsSum(vs: seq<Vehicle>)
    ensures TypeCount(vs, Car) + TypeCount(vs, Bike) + TypeCount(vs, Truck) == |vs|
  {
    if vs != [] {
      TypeCountsSum(vs[1..]);
    }
  }
}
