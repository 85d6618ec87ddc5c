/** The check-in desk (components/EntryForm.tsx): the free slots, the slot the
    form keeps selected, the order of the submit checks and what a submit does
    to the form and to the ledger. */
module EntryForm {
  import opened Wrappers
  import opened Types
  import Seqs
  import Text
  import Store

  // ---------------------------------------------------------------------------
  // Free slots and the selection
  // ---------------------------------------------------------------------------

  function IsFree(): ParkingSlot -> bool
  {
    (s: ParkingSlot) => !s.isOccupied
  }

  /** `slots.filter(s => !s.isOccupied)`. */
  function AvailableSlots(slots: seq<ParkingSlot>): (r: seq<ParkingSlot>)
    ensures forall i :: 0 <= i < |r| ==> !r[i].isOccupied && r[i] in slots
    ensures forall i :: 0 <= i < |slots| && !slots[i].isOccupied ==> slots[i] in r
    ensures |r| == 0 <==> forall i :: 0 <= i < |slots| ==> slots[i].isOccupied
  {
    var r := Seqs.Filter(slots, IsFree());
    Seqs.FilterMembers(slots, IsFree());
    assert |r| > 0 ==> exists i :: 0 <= i < |slots| && !slots[i].isOccupied by {
      if |r| > 0 {
        assert r[0] in slots && !r[0].isOccupied;
        var i :| 0 <= i < |slots| && slots[i] == r[0];
      }
    }
    r
  }

  ghost predicate IdsIncreasing(slots: seq<ParkingSlot>)
  {
    forall i, j :: 0 <= i < j < |slots| ==> slots[i].id < slots[j].id
  }

  /** The free slots keep slot order: filtering a sequence with increasing ids
      gives one with increasing ids. */
  lemma {:induction false} AvailableSlotsInOrder(slots: seq<ParkingSlot>)
    requires IdsIncreasing(slots)
    ensures IdsIncreasing(AvailableSlots(slots))
  {
    if slots != [] {
      var tail := slots[1..];
      TailIncreasing(slots);
      AvailableSlotsInOrder(tail);
      var rest := AvailableSlots(tail);
      if IsFree()(slots[0]) {
        forall j | 0 <= j < |rest|
          ensures slots[0].id < rest[j].id
        {
          assert rest[j] in tail;
        }
        PrependIncreasing(slots[0], rest);
        assert AvailableSlots(slots) == [slots[0]] + rest;
      } else {
        assert AvailableSlots(slots) == rest;
      }
    }
  }

  lemma TailIncreasing(slots: seq<ParkingSlot>)
    requires slots != [] && IdsIncreasing(slots)
    ensures IdsIncreasing(slots[1..])
    ensures forall j :: 0 <= j < |slots| - 1 ==> slots[0].id < slots[1..][j].id
  {
    var tail := slots[1..];
    forall a, b | 0 <= a < b < |tail|
      ensures tail[a].id < tail[b].id
    {
      assert tail[a] == slots[a + 1] && tail[b] == slots[b + 1];
    }
  }

  lemma PrependIncreasing(x: ParkingSlot, rest: seq<ParkingSlot>)
    requires IdsIncreasing(rest)
    requires forall j :: 0 <= j < |rest| ==> x.id < rest[j].id
    ensures IdsIncreasing([x] + rest)
  {
    var r := [x] + rest;
    forall a, b | 0 <= a < b < |r|
      ensures r[a].id < r[b].id
    {
      assert r[b] == rest[b - 1];
      if a > 0 {
        assert r[a] == rest[a - 1];
      }
    }
  }

  /** `availableSlots.some(s => s.id === id)`. */
  predicate Offers(available: seq<ParkingSlot>, id: int)
  {
    exists i | 0 <= i < |available| :: available[i].id == id
  }

  /** The effect that runs when the slots change: pick the first free slot when
      nothing is selected or the selection is no longer free; with no free slot
      leave the selection alone. */
  function AutoSelect(available: seq<ParkingSlot>, selected: Option<int>): Option<int>
  {
    if |available| > 0 && selected.None? then Some(available[0].id)
    else if selected.Some? then
      if !Offers(available, selected.value) && |available| > 0 then Some(available[0].id) else selected
    else selected
  }

  /** The three cases of the effect, and that with a free slot the selection
      always ends up on a free slot. */
  lemma AutoSelectMeaning(available: seq<ParkingSlot>, selected: Option<int>)
    ensures |available| == 0 ==> AutoSelect(available, selected) == selected
    ensures selected.Some? && Offers(available, selected.value) ==> AutoSelect(available, selected) == selected
    ensures |available| > 0 && (selected.None? || !Offers(available, selected.value)) ==>
      AutoSelect(available, selected) == Some(available[0].id)
    ensures |available| > 0 ==>
      AutoSelect(available, selected).Some? && Offers(available, AutoSelect(available, selected).value)
  {
    if |available| > 0 {
      assert available[0].id == available[0].id;
    }
  }

  /** A selection the form offers is a free slot of the ledger, so the ledger
      takes it: on the forty-slot layout a synchronised selection never makes
      `registerVehicle` fail. */
  lemma OfferedSlotIsTaken(slots: seq<ParkingSlot>, id: int)
    requires Store.SlotLayout(slots)
    requires Offers(AvailableSlots(slots), id)
    ensures Store.SlotRequested(Some(id))
    ensures Store.ChooseSlot(slots, Some(id)) == Some((id - 1) as nat)
  {
    var available := AvailableSlots(slots);
    var i :| 0 <= i < |available| && available[i].id == id;
    var s := available[i];
    assert s in slots && !s.isOccupied;
    var k :| 0 <= k < |slots| && slots[k] == s;
    assert k == id - 1;
  }

  // ---------------------------------------------------------------------------
  // Submitting
  // ---------------------------------------------------------------------------

  /** A truthy selected slot id (present and not 0). */
  predicate HasSelection(selected: Option<int>)
  {
    selected.Some? && selected.value != 0
  }

  /** `disabled={availableSlots.length === 0 || !selectedSlotId}`. */
  predicate SubmitDisabled(available: seq<ParkingSlot>, selected: Option<int>)
  {
    |available| == 0 || !HasSelection(selected)
  }

  function DuplicateMessage(plate: string): string
  {
    "Vehicle " + Text.Upper(plate) + " is already currently parked."
  }

  const NoSlotMessage: string := "Please select a parking slot."
  const FullMessage: string := "Parking lot is full!"
  const FailedMessage: string := "Failed to register vehicle. The selected slot might have just been taken."

  /** What the checks at the top of `handleSubmit` decide. */
  datatype Verdict = Skip | Reject(message: string) | Proceed(slotId: int)

  /** The checks in source order: empty plate, duplicate plate, no selection,
      full lot. */
  function Check(plate: string, vs: seq<Vehicle>, available: seq<ParkingSlot>, selected: Option<int>): (r: Verdict)
    ensures r == Skip <==> plate == ""
    ensures r == Reject(DuplicateMessage(plate)) <==> plate != "" && Store.PlateTaken(vs, Text.Upper(plate))
    ensures r == Reject(NoSlotMessage) <==>
      plate != "" && !Store.PlateTaken(vs, Text.Upper(plate)) && !HasSelection(selected)
    ensures r == Reject(FullMessage) <==>
      plate != "" && !Store.PlateTaken(vs, Text.Upper(plate)) && HasSelection(selected) && |available| == 0
    ensures r.Proceed? <==>
      plate != "" && !Store.PlateTaken(vs, Text.Upper(plate)) && HasSelection(selected) && |available| > 0
    ensures r.Proceed? ==> r.slotId == selected.value
  {
    if plate == "" then Skip
    else if Store.PlateTaken(vs, Text.Upper(plate)) then Reject(DuplicateMessage(plate))
    else if !HasSelection(selected) then Reject(NoSlotMessage)
    else if |available| == 0 then Reject(FullMessage)
    else Proceed(selected.value)
  }

  /** With the button enabled, only an empty or duplicate plate stops a submit. */
  lemma EnabledSubmitPassesSlotChecks(plate: string, vs: seq<Vehicle>, available: seq<ParkingSlot>,
                                      selected: Option<int>)
    requires !SubmitDisabled(available, selected)
    ensures Check(plate, vs, available, selected) != Reject(NoSlotMessage)
    ensures Check(plate, vs, available, selected) != Reject(FullMessage)
    ensures plate != "" && !Store.PlateTaken(vs, Text.Upper(plate)) ==>
      Check(plate, vs, available, selected) == Proceed(selected.value)
  {
    assert DuplicateMessage(plate) != NoSlotMessage by {
      assert DuplicateMessage(plate)[0] == 'V';
    }
    assert DuplicateMessage(plate) != FullMessage by {
      assert DuplicateMessage(plate)[0] == 'V';
    }
  }

  /** The form's fields, its selection and its ticket. */
  datatype FormFields = FormFields(plate: string, vehicleType: VehicleType, model: string, color: string,
                                   contact: string, notes: string, selectedSlotId: Option<int>,
                                   ticket: Option<Vehicle>)

  class EntryFormState {
    var plate: string
    var vehicleType: VehicleType
    var model: string
    var color: string
    var contact: string
    var notes: string
    var selectedSlotId: Option<int>
    var error: Option<string>
    var ticket: Option<Vehicle>

    /** The form the desk starts with. */
    constructor ()
      ensures plate == "" && vehicleType == Car && model == "" && color == "" && contact == "" && notes == ""
      ensures selectedSlotId == None && error == None && ticket == None
    {
      plate, vehicleType, model, color, contact, notes := "", Car, "", "", "", "";
      selectedSlotId, error, ticket := None, None, None;
    }

    /** The input fields' `onChange` handlers and the type buttons. */
    method EditFields(plate': string, vehicleType': VehicleType, model': string, color': string,
                      contact': string, notes': string)
      modifies this`plate, this`vehicleType, this`model, this`color, this`contact, this`notes
      ensures plate == plate' && vehicleType == vehicleType' && model == model'
      ensures color == color' && contact == contact' && notes == notes'
    {
      plate, vehicleType, model, color, contact, notes := plate', vehicleType', model', color', contact', notes';
    }

    /** A slot button. */
    method SelectSlot(id: int)
      modifies this`selectedSlotId
      ensures selectedSlotId == Some(id)
    {
      selectedSlotId := Some(id);
    }

    /** The effect on `[slots]`. */
    method SyncSelection(slots: seq<ParkingSlot>)
      modifies this`selectedSlotId
      ensures selectedSlotId == AutoSelect(AvailableSlots(slots), old(selectedSlotId))
      ensures |AvailableSlots(slots)| > 0 ==>
        selectedSlotId.Some? && Offers(AvailableSlots(slots), selectedSlotId.value)
    {
      var available := AvailableSlots(slots);
      AutoSelectMeaning(available, selectedSlotId);
      if |available| > 0 && selectedSlotId == None {
        selectedSlotId := Some(available[0].id);
      } else if selectedSlotId != None {
        if !Offers(available, selectedSlotId.value) && |available| > 0 {
          selectedSlotId := Some(available[0].id);
        }
      }
    }

    /** The ticket's close buttons. */
    method CloseTicket()
      modifies this`ticket
      ensures ticket == None
    {
      ticket := None;
    }

    /** Everything the form shows besides the error line. */
    function Fields(): FormFields
      reads this
    {
      FormFields(plate, vehicleType, model, color, contact, notes, selectedSlotId, ticket)
    }

    /** What the checks decide for this form against `ledger`. */
    function Verdict(ledger: Store.ParkingProvider): Verdict
      reads this, ledger
    {
      Check(plate, ledger.activeVehicles, AvailableSlots(ledger.slots), selectedSlotId)
    }

    /** The slot the ledger would take for a submit that passes the checks. */
    function Choice(ledger: Store.ParkingProvider): Option<nat>
      reads this, ledger
      requires Verdict(ledger).Proceed?
    {
      Store.ChooseSlot(ledger.slots, Some(Verdict(ledger).slotId))
    }

    /** `handleSubmit`: clear the error, run the checks in order and stop at the
        first that fails; otherwise register through the ledger, then either show
        the ticket and reset the form or report that the slot was taken. */
    method Submit(ledger: Store.ParkingProvider, newId: string, logId: string, now: int)
      requires ledger.Valid()
      requires forall k :: 0 <= k < |ledger.activeVehicles| ==> ledger.activeVehicles[k].id != newId
      modifies this, ledger
      ensures ledger.Valid()
      ensures old(Verdict(ledger)) == Skip ==> error == None && Fields() == old(Fields()) && unchanged(ledger)
      ensures old(Verdict(ledger)).Reject? ==>
        error == Some(old(Verdict(ledger)).message) && Fields() == old(Fields()) && unchanged(ledger)
      ensures old(Verdict(ledger)).Proceed? && old(Choice(ledger)).None? ==>
        error == Some(FailedMessage) && Fields() == old(Fields()) && unchanged(ledger)
      ensures old(Verdict(ledger)).Proceed? && old(Choice(ledger)).Some? ==>
        && ticket == Some(Store.NewVehicle(
             Store.Registration(old(plate), old(vehicleType), old(model), old(color), old(contact), Some(old(notes))),
             newId, old(ledger.slots)[old(Choice(ledger)).value].id, now))
        && ledger.activeVehicles == [ticket.value] + old(ledger.activeVehicles)
        && ledger.State() == Store.AfterRegister(old(ledger.State()), ticket.value, logId, now)
      ensures old(Verdict(ledger)).Proceed? && old(Choice(ledger)).Some? ==>
        && error == None
        && plate == "" && contact == "" && model == "" && color == "" && notes == ""
        && vehicleType == Car && selectedSlotId == None
    {
      error := None;
      var available := AvailableSlots(ledger.slots);
      var verdict := Check(plate, ledger.activeVehicles, available, selectedSlotId);
      match verdict
      case Skip =>
        return;
      case Reject(message) =>
        error := Some(message);
        return;
      case Proceed(slotId) =>
        Register(ledger, slotId, newId, logId, now);
    }

    /** The part of `handleSubmit` after the checks: register, then show the
        ticket and reset the form, or report that the slot was taken. */
    method Register(ledger: Store.ParkingProvider, slotId: int, newId: string, logId: string, now: int)
      requires ledger.Valid()
      requires forall k :: 0 <= k < |ledger.activeVehicles| ==> ledger.activeVehicles[k].id != newId
      requires !Store.PlateTaken(ledger.activeVehicles, Text.Upper(plate))
      modifies this, ledger
      ensures ledger.Valid()
      ensures Store.ChooseSlot(old(ledger.slots), Some(slotId)).None? ==>
        error == Some(FailedMessage) && Fields() == old(Fields()) && unchanged(ledger)
      ensures Store.ChooseSlot(old(ledger.slots), Some(slotId)).Some? ==>
        && ticket == Some(Store.NewVehicle(
             Store.Registration(old(plate), old(vehicleType), old(model), old(color), old(contact), Some(old(notes))),
             newId, old(ledger.slots)[Store.ChooseSlot(old(ledger.slots), Some(slotId)).value].id, now))
        && ledger.activeVehicles == [ticket.value] + old(ledger.activeVehicles)
        && ledger.State() == Store.AfterRegister(old(ledger.State()), ticket.value, logId, now)
        && error == old(error)
        && plate == "" && contact == "" && model == "" && color == "" && notes == ""
        && vehicleType == Car && selectedSlotId == None
    {
      var data := Store.Registration(plate, vehicleType, model, color, contact, Some(notes));
      var vehicle := ledger.RegisterVehicle(data, Some(slotId), newId, logId, now);
      ShowOutcome(vehicle);
    }

    /** Show the ticket and reset the form after a registration, or report
        that the slot was taken. */
    method ShowOutcome(vehicle: Option<Vehicle>)
      modifies this
      ensures vehicle.None? ==> error == Some(FailedMessage) && Fields() == old(Fields())
      ensures vehicle.Some? ==>
        && ticket == vehicle && error == old(error)
        && plate == "" && contact == "" && model == "" && color == "" && notes == ""
        && vehicleType == Car && selectedSlotId == None
    {
      if vehicle.Some? {
        ticket := vehicle;
        plate, contact, model, color, notes := "", "", "", "", "";
        vehicleType := Car;
        selectedSlotId := None;
      } else {
        error := Some(FailedMessage);
      }
    }
  }
}
