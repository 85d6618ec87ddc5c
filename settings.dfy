/** The admin settings page (components/Settings.tsx): editing and saving the
    rate table, the branch form with its zones, the role rule of the user form
    and the PIN-gated reset. Branches and users live outside the store; the
    branch list is a parameter and the branch a submit would create or update
    is returned to the caller. */
module Settings {
  import opened Wrappers
  import opened Types
  import Text
  import Store
  import Constants

  // ---------------------------------------------------------------------------
  // Branches, zones and users as the page sees them
  // ---------------------------------------------------------------------------

  datatype Zone = Zone(id: string, name: string, capacity: int, kind: SlotKind)

  datatype Branch = Branch(id: string, name: string, capacity: int, zones: seq<Zone>)

  /** The branch form: id, name and the zone rows. */
  datatype BranchForm = BranchForm(id: string, name: string, zones: seq<Zone>)

  datatype Role = Admin | Staff

  datatype User = User(id: string, username: string, role: Role, branchId: string, fullName: string,
                       email: string, phoneNumber: string, caption: string, avatarUrl: string)

  /** One edit of one zone row: its name, its capacity or its kind. */
  datatype ZoneEdit = SetName(name: string) | SetCapacity(capacity: int) | SetKind(kind: SlotKind)

  /** What a branch submit asks of the branch store. */
  datatype BranchRequest = UpdateBranch(editingId: string, branch: Branch) | AddBranch(branch: Branch) | DuplicateId

  const DefaultZone: Zone := Zone("z1", "Zone A", 20, Standard)
  const InitialZone: Zone := Zone("z1", "Main Zone", 20, Standard)

  const RatesSaved: string := "Parking rates have been updated successfully."
  const BranchUpdated: string := "Branch updated successfully."
  const BranchCreated: string := "New branch created successfully."
  const ResetDone: string := "System data for current branch reset."
  const WrongPin: string := "Incorrect Admin PIN."
  const AdminPin: string := "1234"

  /** `zones.reduce((sum, z) => sum + z.capacity, 0)`. */
  function TotalCapacity(zones: seq<Zone>): int
  {
    if zones == [] then 0 else TotalCapacity(zones[..|zones| - 1]) + zones[|zones| - 1].capacity
  }

  lemma {:induction false} TotalCapacityConcat(a: seq<Zone>, b: seq<Zone>)
    ensures TotalCapacity(a + b) == TotalCapacity(a) + TotalCapacity(b)
  {
    if b != [] {
      assert (a + b)[..|a + b| - 1] == a + b[..|b| - 1];
      TotalCapacityConcat(a, b[..|b| - 1]);
    } else {
      assert a + b == a;
    }
  }

  /** The row `addZone` appends to a form with `n` zones. */
  function NewZone(n: nat): Zone
  {
    Zone("z" + Text.NatToString(n + 1), "New Zone", 10, Standard)
  }

  /** `{ ...zone, [field]: value }`. */
  function ApplyEdit(z: Zone, edit: ZoneEdit): (r: Zone)
    ensures edit.SetName? ==> r == z.(name := edit.name)
    ensures edit.SetCapacity? ==> r == z.(capacity := edit.capacity)
    ensures edit.SetKind? ==> r == z.(kind := edit.kind)
  {
    match edit
    case SetName(n) => z.(name := n)
    case SetCapacity(c) => z.(capacity := c)
    case SetKind(k) => z.(kind := k)
  }

  /** `zones.filter((_, i) => i !== index)`. */
  function WithoutZone(zones: seq<Zone>, index: int): (r: seq<Zone>)
    ensures 0 <= index < |zones| ==> r == zones[..index] + zones[index + 1..]
    ensures !(0 <= index < |zones|) ==> r == zones
  {
    if 0 <= index < |zones| then zones[..index] + zones[index + 1..] else zones
  }

  /** Adding a zone adds its ten slots to the total; removing one takes away
      its capacity; editing a capacity changes the total by the difference. */
  lemma CapacityAfterZoneChanges(zones: seq<Zone>, index: int, c: int)
    ensures TotalCapacity(zones + [NewZone(|zones|)]) == TotalCapacity(zones) + 10
    ensures 0 <= index < |zones| ==>
      TotalCapacity(WithoutZone(zones, index)) == TotalCapacity(zones) - zones[index].capacity
    ensures 0 <= index < |zones| ==>
      TotalCapacity(zones[index := ApplyEdit(zones[index], SetCapacity(c))])
        == TotalCapacity(zones) - zones[index].capacity + c
  {
    TotalCapacityConcat(zones, [NewZone(|zones|)]);
    assert [NewZone(|zones|)][..0] == [];
    if 0 <= index < |zones| {
      var z := zones[index];
      assert zones == zones[..index] + [z] + zones[index + 1..];
      TotalCapacityConcat(zones[..index] + [z], zones[index + 1..]);
      TotalCapacityConcat(zones[..index], [z]);
      TotalCapacityConcat(zones[..index], zones[index + 1..]);
      assert [z][..0] == [];
      var z' := ApplyEdit(z, SetCapacity(c));
      assert zones[index := z'] == zones[..index] + [z'] + zones[index + 1..];
      TotalCapacityConcat(zones[..index] + [z'], zones[index + 1..]);
      TotalCapacityConcat(zones[..index], [z']);
      assert [z'][..0] == [];
    }
  }

  /** The submitted branch: the form's id and name, its zones, and their total
      capacity. */
  function BranchFrom(form: BranchForm): (b: Branch)
    ensures b.id == form.id && b.name == form.name && b.zones == form.zones
    ensures b.capacity == TotalCapacity(form.zones)
  {
    Branch(form.id, form.name, TotalCapacity(form.zones), form.zones)
  }

  /** `branches.some(b => b.id === id)`. */
  predicate IdTaken(branches: seq<Branch>, id: string)
  {
    exists i | 0 <= i < |branches| :: branches[i].id == id
  }

  /** A truthy editing id (present and not empty). */
  predicate IsEditing(editingId: Option<string>)
  {
    editingId.Some? && editingId.value != ""
  }

  /** `handleBranchSubmit`'s decision: update when editing, otherwise create
      unless the id is taken. */
  function BranchSubmit(form: BranchForm, editingId: Option<string>, branches: seq<Branch>): (r: BranchRequest)
    ensures r.DuplicateId? <==> !IsEditing(editingId) && IdTaken(branches, form.id)
    ensures r.AddBranch? ==> !IdTaken(branches, r.branch.id)
    ensures !r.DuplicateId? ==> r.branch == BranchFrom(form)
    ensures r.UpdateBranch? <==> IsEditing(editingId)
  {
    if IsEditing(editingId) then UpdateBranch(editingId.value, BranchFrom(form))
    else if IdTaken(branches, form.id) then DuplicateId
    else AddBranch(BranchFrom(form))
  }

  /** The branch a staff member is assigned on a role change: `branches[0]?.id || ''`. */
  function FirstBranchId(branches: seq<Branch>): string
  {
    if |branches| > 0 then branches[0].id else ""
  }

  /** The role selector's rule: an admin gets no branch, staff the first one. */
  function WithRole(u: User, role: Role, branches: seq<Branch>): (r: User)
    ensures r.role == role
    ensures role == Admin ==> r.branchId == ""
    ensures role == Staff ==> r.branchId == FirstBranchId(branches)
    ensures r.(role := u.role, branchId := u.branchId) == u
  {
    u.(role := role, branchId := if role == Admin then "" else FirstBranchId(branches))
  }

  /** `parseFloat(value)` accepted only when it is a number and not negative. */
  predicate AcceptableRate(parsed: Option<real>)
  {
    parsed.Some? && parsed.value >= 0.0
  }

  const BlankUser: User := User("", "", Staff, "", "", "", "", "", "")

  // ---------------------------------------------------------------------------
  // The page's state
  // ---------------------------------------------------------------------------

  class SettingsPanel {
    var editingRates: ParkingRates
    var hasChanges: bool
    var branchForm: BranchForm
    var editingBranchId: Option<string>
    var showBranchModal: bool
    var userForm: User
    var showAuthModal: bool
    var pin: string
    var error: string
    var feedback: Option<string>

    /** The page opens with the ledger's rates and a one-zone branch form. */
    constructor (rates: ParkingRates)
      ensures editingRates == rates && !hasChanges
      ensures branchForm == BranchForm("", "", [InitialZone]) && editingBranchId == None && !showBranchModal
      ensures userForm == BlankUser && !showAuthModal && pin == "" && error == "" && feedback == None
    {
      editingRates := rates;
      hasChanges := false;
      branchForm := BranchForm("", "", [InitialZone]);
      editingBranchId := None;
      showBranchModal := false;
      userForm := BlankUser;
      showAuthModal := false;
      pin := "";
      error := "";
      feedback := None;
    }

    /** The effect on `[rates]`: the edited table follows the saved one. */
    method SyncRates(rates: ParkingRates)
      modifies this`editingRates
      ensures editingRates == rates
    {
      editingRates := rates;
    }

    /** `handleRateChange`: take a non-negative number for one type and record
        whether the edited table now differs from the saved one; ignore
        anything else. */
    method HandleRateChange(t: VehicleType, parsed: Option<real>, saved: ParkingRates)
      modifies this`editingRates, this`hasChanges
      ensures AcceptableRate(parsed) ==>
        && editingRates == old(editingRates).With(t, parsed.value)
        && editingRates.RateFor(t) == parsed.value
        && (hasChanges <==> editingRates != saved)
      ensures !AcceptableRate(parsed) ==> editingRates == old(editingRates) && hasChanges == old(hasChanges)
      ensures old(editingRates).NonNegative() ==> editingRates.NonNegative()
    {
      if AcceptableRate(parsed) {
        var newRates := editingRates.With(t, parsed.value);
        editingRates := newRates;
        hasChanges := newRates != saved;
      }
    }

    /** `saveRates`: hand the edited table to the ledger and clear the flag. */
    method SaveRates(ledger: Store.ParkingProvider, logId: string, now: int)
      requires ledger.Valid()
      modifies this`hasChanges, this`feedback, ledger
      ensures ledger.Valid()
      ensures ledger.rates == editingRates
      ensures ledger.recentLogs == Store.PushLog(old(ledger.recentLogs),
                                                 ActivityLog(logId, System, Store.RatesMessage, now, None))
      ensures ledger.State() == Store.AfterRatesUpdate(old(ledger.State()), editingRates, logId, now)
      ensures ledger.slots == old(ledger.slots) && ledger.activeVehicles == old(ledger.activeVehicles)
      ensures ledger.transactions == old(ledger.transactions)
      ensures !hasChanges && feedback == Some(RatesSaved)
    {
      ledger.UpdateRates(editingRates, logId, now);
      hasChanges := false;
      feedback := Some(RatesSaved);
    }

    /** `openBranchModal`: load a branch for editing, or a fresh one-zone form. */
    method OpenBranchModal(branch: Option<Branch>)
      modifies this`editingBranchId, this`branchForm, this`showBranchModal
      ensures branch.Some? ==>
        editingBranchId == Some(branch.value.id)
        && branchForm == BranchForm(branch.value.id, branch.value.name, branch.value.zones)
      ensures branch.None? ==> editingBranchId == None && branchForm == BranchForm("", "", [DefaultZone])
      ensures showBranchModal
    {
      if branch.Some? {
        editingBranchId := Some(branch.value.id);
        branchForm := BranchForm(branch.value.id, branch.value.name, branch.value.zones);
      } else {
        editingBranchId := None;
        branchForm := BranchForm("", "", [DefaultZone]);
      }
      showBranchModal := true;
    }

    /** `addZone`: append one default row and keep the others. */
    method AddZone()
      modifies this`branchForm
      ensures branchForm.zones == old(branchForm.zones) + [NewZone(|old(branchForm.zones)|)]
      ensures branchForm.id == old(branchForm.id) && branchForm.name == old(branchForm.name)
      ensures TotalCapacity(branchForm.zones) == TotalCapacity(old(branchForm.zones)) + 10
    {
      CapacityAfterZoneChanges(branchForm.zones, 0, 0);
      branchForm := branchForm.(zones := branchForm.zones + [NewZone(|branchForm.zones|)]);
    }

    /** `updateZone`: change one field of one row. */
    method UpdateZone(index: int, edit: ZoneEdit)
      requires 0 <= index < |branchForm.zones|
      modifies this`branchForm
      ensures branchForm == old(branchForm).(zones := old(branchForm.zones)[index := ApplyEdit(old(branchForm.zones)[index], edit)])
      ensures |branchForm.zones| == |old(branchForm.zones)|
      ensures forall i :: 0 <= i < |branchForm.zones| && i != index ==> branchForm.zones[i] == old(branchForm.zones)[i]
    {
      branchForm := branchForm.(zones := branchForm.zones[index := ApplyEdit(branchForm.zones[index], edit)]);
    }

    /** `removeZone`: drop one row, but never the last one. */
    method RemoveZone(index: int)
      modifies this`branchForm
      ensures |old(branchForm.zones)| > 1 ==> branchForm == old(branchForm).(zones := WithoutZone(old(branchForm.zones), index))
      ensures |old(branchForm.zones)| <= 1 ==> branchForm == old(branchForm)
      ensures |old(branchForm.zones)| >= 1 ==> |branchForm.zones| >= 1
    {
      if |branchForm.zones| > 1 {
        branchForm := branchForm.(zones := WithoutZone(branchForm.zones, index));
      }
    }

    /** `handleBranchSubmit`: ask for an update or a creation with the summed
        capacity and close the form; a duplicate id keeps the form open and
        asks for nothing. */
    method HandleBranchSubmit(branches: seq<Branch>) returns (r: BranchRequest)
      modifies this`showBranchModal, this`feedback
      ensures r == BranchSubmit(branchForm, editingBranchId, branches)
      ensures r.DuplicateId? ==> showBranchModal == old(showBranchModal) && feedback == old(feedback)
      ensures r.UpdateBranch? ==> !showBranchModal && feedback == Some(BranchUpdated)
      ensures r.AddBranch? ==> !showBranchModal && feedback == Some(BranchCreated)
    {
      r := BranchSubmit(branchForm, editingBranchId, branches);
      if r.DuplicateId? {
        return;
      }
      feedback := Some(if r.UpdateBranch? then BranchUpdated else BranchCreated);
      showBranchModal := false;
    }

    /** The role selector of the user form. */
    method ChangeRole(role: Role, branches: seq<Branch>)
      modifies this`userForm
      ensures userForm == WithRole(old(userForm), role, branches)
    {
      userForm := WithRole(userForm, role, branches);
    }

    /** `handleResetClick`: open the PIN dialog with a clean slate. */
    method HandleResetClick()
      modifies this`showAuthModal, this`pin, this`error
      ensures showAuthModal && pin == "" && error == ""
    {
      showAuthModal, pin, error := true, "", "";
    }

    /** `handleVerify`: the admin PIN resets the ledger and closes the dialog;
        any other PIN only shows an error. */
    method HandleVerify(ledger: Store.ParkingProvider, logId: string, now: int)
      requires ledger.Valid()
      modifies this`showAuthModal, this`feedback, this`error, ledger
      ensures ledger.Valid()
      ensures pin == AdminPin ==>
        && ledger.slots == Constants.InitialSlots() && ledger.activeVehicles == [] && ledger.transactions == []
        && ledger.rates == Constants.DefaultRates
        && ledger.recentLogs == [ActivityLog(logId, System, Store.ResetMessage, now, None)]
        && !showAuthModal && feedback == Some(ResetDone) && error == old(error)
      ensures pin != AdminPin ==>
        unchanged(ledger) && error == WrongPin
        && showAuthModal == old(showAuthModal) && feedback == old(feedback)
    {
      if pin == AdminPin {
        ledger.ResetSystem(logId, now);
        showAuthModal := false;
        feedback := Some(ResetDone);
      } else {
        error := WrongPin;
      }
    }
  }
}
