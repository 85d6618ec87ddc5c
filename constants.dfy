/** The lot's fixed size, the default tariff and the initial slot layout. */
module Constants {
  import opened Wrappers
  import opened Types

  const TotalSlots: nat := 40

  /** Default hourly rates: Car 5, Bike 2, Truck 10. */
  const DefaultRates: ParkingRates := ParkingRates(5.0, 2.0, 10.0)

  /** Slots 1-10 and 21-30 are priority, so each of the two zones has priority places. */
  function KindFor(slotId: int): SlotKind
  {
    if (1 <= slotId <= 10) || (21 <= slotId <= 30) then Priority else Standard
  }

  /** `INITIAL_SLOTS`: one free slot per position, numbered from 1. */
  function InitialSlots(): (r: seq<ParkingSlot>)
    ensures |r| == TotalSlots
    ensures forall i :: 0 <= i < |r| ==> r[i].id == i + 1 && r[i].kind == KindFor(i + 1)
    ensures forall i :: 0 <= i < |r| ==> !r[i].isOccupied && r[i].vehicleId == None
  {
    seq(TotalSlots, i requires 0 <= i < TotalSlots => ParkingSlot(i + 1, false, None, KindFor(i + 1)))
  }

  /** The default rates are all non-negative. */
  lemma DefaultRatesNonNegative()
    ensures DefaultRates.NonNegative()
    ensures DefaultRates.RateFor(Car) == 5.0 && DefaultRates.RateFor(Bike) == 2.0
    ensures DefaultRates.RateFor(Truck) == 10.0
  {
  }

  /** Number of slots of the given kind. */
  function CountKind(slots: seq<ParkingSlot>, k: SlotKind): nat
  {
    if slots == [] then 0
    else CountKind(slots[..|slots| - 1], k) + (if slots[|slots| - 1].kind == k then 1 else 0)
  }

  /** How many of the ids 1..n are priority ids. */
  function PriorityUpTo(n: nat): nat
  {
    if n <= 10 then n else if n <= 20 then 10 else if n <= 30 then n - 10 else 20
  }

  lemma {:induction false} PrefixCounts(n: nat)
    requires n <= TotalSlots
    ensures CountKind(InitialSlots()[..n], Priority) == PriorityUpTo(n)
    ensures CountKind(InitialSlots()[..n], Standard) == n - PriorityUpTo(n)
  {
    if n > 0 {
      var s := InitialSlots();
      assert s[..n][..n - 1] == s[..n - 1];
      PrefixCounts(n - 1);
    }
  }

  /** The initial layout has 20 priority and 20 standard slots. */
  lemma InitialKindCounts()
    ensures CountKind(InitialSlots(), Priority) == 20
    ensures CountKind(InitialSlots(), Standard) == 20
  {
    PrefixCounts(TotalSlots);
    assert InitialSlots()[..TotalSlots] == InitialSlots();
  }
}
