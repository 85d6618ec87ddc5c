# SmartPark parking ledger in Dafny

This project models the core of SmartPark, a single-lot parking manager
written as a React application, and proves properties of that model.

**The ledger.** At the centre is the ledger kept by `ParkingProvider` in
`store.tsx`. It holds:
- forty slots;
- the active vehicles;
- the settled transactions;
- the last fifty activity-log entries;
- the hourly rate table.

It offers five operations: register a vehicle into a slot, check a vehicle
out and bill it, update the rates, look a slot up, and reset. Around it sit
the screens that compute things of their own:
- the exit terminal (`ExitList.tsx`): search, extras, discount, previewed and
  charged amounts;
- the lot map (`ParkingLot.tsx`): zones, filters, distance bands, quick
  checkout;
- the entry form (`EntryForm.tsx`): free slots, automatic slot choice and the
  checks before registering;
- the reports page (`HistoryLog.tsx`): filter, revenue, average stay, CSV
  export;
- the dashboard (`Dashboard.tsx`): occupancy, today's revenue, vehicle mix;
- the admin settings (`Settings.tsx`): rate editing, branch and zone form,
  role rule, PIN-gated reset.

**Modules.** Each source file becomes one Dafny module, plus three helper
modules:
- `Wrappers`: `Option` and `Result`;
- `Seqs`: `filter`, `findIndex` and `reduce` over sequences;
- `Text`: upper-casing, substring search, join/split, decimal digits.

| file | module | source |
|---|---|---|
| types.dfy | Types | types.ts |
| constants.dfy | Constants | constants.ts |
| fees.dfy | Fees | the fee arithmetic of store.tsx |
| store.dfy | Store | store.tsx |
| exit_list.dfy | ExitList | components/ExitList.tsx |
| parking_lot.dfy | ParkingLot | components/ParkingLot.tsx |
| entry_form.dfy | EntryForm | components/EntryForm.tsx |
| history_log.dfy | HistoryLog | components/HistoryLog.tsx |
| dashboard.dfy | Dashboard | components/Dashboard.tsx |
| settings.dfy | Settings | components/Settings.tsx |

**How the source maps to Dafny.**
- The provider's React state becomes the fields of class
  `Store.ParkingProvider`. Each operation is a method whose `ensures` clauses
  state its whole new state.
- The ledger invariant is `Store.Consistent`, kept as part of `Valid()`, and
  every method preserves it. It says three things:
  - slot `i` has id `i + 1` and the kind the constants give it;
  - active vehicles have distinct ids, plates and slots;
  - a slot names a vehicle exactly when that vehicle is active and parked
    there.

  `Valid()` also requires every recorded amount to be non-negative and the
  log to hold at most fifty entries.
- The provider's five fields together form one `Store.Ledger` value. Three
  functions give the ledger after a successful registration, checkout and
  rate update: `AfterRegister`, `AfterCheckout` and `AfterRatesUpdate`. The
  ledger's methods and the screens' handlers that call them state their
  effect on the ledger through these.
- Each screen's local state becomes a class: `CheckoutPanel`, `MapView`,
  `EntryFormState` and `SettingsPanel`. Their handlers are methods that call
  the ledger's methods.
- Pure computations are functions, with lemmas relating them.
- Money is `real`. Times are integer milliseconds. The current time `now` and
  every id the source draws from `Math.random` are parameters. Fresh vehicle
  ids are required not to clash with active ones.
- JavaScript truthiness is written out wherever the source relies on it. Slot
  id `0` counts as "no slot", and an empty date bound counts as "no bound".
- `Math.ceil`, `Math.round`, `%` and `slice` are modelled with JavaScript's
  rules.

**Fees versus estimates.** A checkout bills whole hours, each made of whole
minutes. The exit terminal's preview and its discount use a per-minute price
instead (`ProratedCost`). The model proves three things about this:
- the per-minute price never exceeds the billed base, and is at most one
  hour's rate below it;
- so a checkout from the terminal never reaches the ledger's clamp at zero.
  The terminal reads the clock once for its discount and the ledger reads it
  again to bill. The proof covers any second reading not earlier than the
  first;
- the preview and the charge do differ: 61 minutes previews about $5.08 but
  is charged $10.

## Model

| member | source | states |
|---|---|---|
| Types.ParkingRates.With | components/Settings.tsx:46 | Setting one type's rate gives that rate for that type and leaves the other two unchanged. |
| Constants.InitialSlots | constants.ts:14-25 | Forty slots with ids 1..40 in order, all free with no vehicle, each with the kind the priority rule gives its id. |
| Constants.DefaultRatesNonNegative | constants.ts:5-9 | The default rates are 5, 2 and 10 for car, bike and truck, none of them negative. |
| Constants.PrefixCounts | constants.ts:16-17 | Among the first n initial slots, the priority ones are exactly those with id in 1..10 or 21..30; the rest are standard. |
| Constants.InitialKindCounts | constants.ts:14-25 | The initial lot has 20 priority and 20 standard slots. |
| Fees.CeilDiv | store.tsx:113-114 | `Math.ceil(a / b)` for integers: the least q with a ≤ b·q. |
| Fees.CeilDivNested | store.tsx:113-114 | Rounding up to minutes and then to hours equals rounding the milliseconds straight up to hours. |
| Fees.FinalAmount | store.tsx:118 | The clamped total is never negative, never below base + extras − discount, and equals that total or 0. |
| Fees.ChargeMeaning | store.tsx:111-118 | Partial minutes and partial hours are billed in full; the base is whole hours times the rate; the final amount is the clamped total, equal to it when it is non-negative and 0 otherwise. |
| Fees.BaseMonotone | store.tsx:112-117 | At a non-negative rate, a longer stay is never charged a smaller base. |
| Fees.PlainChargeIsBase | store.tsx:107-118 | With no extras and no discount (the defaults), a non-negative stay is charged exactly its non-negative base. |
| Fees.BaseNonNegative | store.tsx:117 | Whole hours at a non-negative rate cost a non-negative amount. |
| Fees.SeventyFiveMinutes | store.tsx:111-118 | A 75-minute stay at $5/h lasts 75 minutes, is billed as 2 hours, and costs $10. |
| Fees.SeventyFiveMinutesWithExtras | store.tsx:111-118 | The same stay with $3.99 of extras and a $2 discount costs $11.99. |
| Text.Upper | store.tsx:70 | `toUpperCase` on ASCII: same length, no lower-case letter left, other characters unchanged. |
| Text.UpperIdempotent | store.tsx:86 | Upper-casing an already upper-cased plate changes nothing. |
| Store.OccupiedIffActive | store.tsx:96-98 | On a consistent ledger, a slot is occupied by vehicle id v exactly when an active vehicle with id v is parked in it. |
| Store.PushLog | store.tsx:36 | The new entry comes first, the older ones follow in order, and at most fifty are kept. |
| Store.FindVehicle | store.tsx:108-109 | A found position holds the requested id; nothing is found exactly when no active vehicle has it. |
| Store.ChooseSlot | store.tsx:74-82 | The chosen slot is free. With a truthy requested id, it has that id and fails exactly when no free slot has it; otherwise it is the first free slot and fails exactly when all are occupied. |
| Store.OccupySlot | store.tsx:96-98 | Every slot keeps its id and kind; the slots with the given id become occupied by the vehicle, and every other slot is unchanged. |
| Store.ReleaseSlot | store.tsx:138 | Every slot keeps its id and kind; the slots with the given id become free with no vehicle, and every other slot is unchanged. |
| Store.RemoveUniqueVehicle | store.tsx:137 | With distinct ids, filtering out one vehicle's id removes exactly that vehicle and keeps the others in order. |
| Store.SettleMeaning | store.tsx:111-134 | The transaction copies the vehicle's id, plate, type and entry time. It exits at `now`, and its minutes and base are exactly `DurationMinutes` of the stay and `BaseAmount` of the billable hours at the vehicle type's rate. It records the extras and the discount, and clamps the final amount at 0. |
| Store.InitialConsistent | store.tsx:22-23 | The initial slots with no vehicles are consistent. |
| Store.DemoConsistent | store.tsx:40-61 | The two demonstration vehicles parked in slots 1 and 7 are consistent with the seeded slots. |
| Store.RegisterPreservesConsistency | store.tsx:96-101 | Parking a vehicle with a fresh id and an unused plate in a free slot keeps the ledger consistent. |
| Store.OccupyKeepsLayout | store.tsx:96-98 | Occupying a free slot keeps the slot layout and changes only that slot. |
| Store.PrependKeepsDistinct | store.tsx:101 | Prepending a vehicle with a new id, plate and slot keeps the vehicles distinct. |
| Store.OccupyKeepsMatch | store.tsx:96-101 | After occupying, the slot names the new vehicle and every other slot–vehicle pairing stays. |
| Store.CheckoutPreservesConsistency | store.tsx:136-138 | Removing an active vehicle and freeing its slot keeps the ledger consistent, and its slot id is a real slot. |
| Store.SlotLookup | store.tsx:144 | On the layout, the lookup finds slot `id - 1` exactly for ids 1..40. |
| Store.SlotById | store.tsx:144 | A found slot has the id; nothing is found exactly when no slot has it. |
| Store.ParkingProvider.constructor | store.tsx:22-26 | Starts with the initial slots, no vehicles, transactions or logs, and the default rates, consistently. |
| Store.ParkingProvider.SeedDemoData | store.tsx:40-61 | With no vehicles and no transactions, installs the two demo vehicles, their slots and the two demo log entries; otherwise changes nothing. |
| Store.ParkingProvider.AddLog | store.tsx:28-37 | Pushes one entry onto the log, keeping fifty. |
| Store.ParkingProvider.UpdateRates | store.tsx:63-66 | Replaces the rates, logs one system entry, and leaves slots, vehicles and transactions unchanged (the whole ledger is `AfterRatesUpdate` of the old one). |
| Store.ParkingProvider.RegisterVehicle | store.tsx:68-105 | Fails, changing nothing, exactly when the upper-cased plate is parked or no slot can be chosen. Otherwise it builds the vehicle (upper-cased plate, "Unknown" for an empty model or colour, the chosen slot), prepends it, occupies only that slot, logs the entry, keeps transactions and rates (the whole ledger is `AfterRegister` of the old one), and keeps the ledger consistent. |
| Store.ParkingProvider.CheckoutVehicle | store.tsx:107-142 | An unknown id fails with nothing changed. Otherwise it prepends the settled transaction, removes exactly that vehicle, frees exactly its slot, logs the exit, keeps the rates (the whole ledger is `AfterCheckout` of the old one), records a non-negative amount, and keeps the ledger consistent. |
| Store.ParkingProvider.GetSlotStatus | store.tsx:144 | Returns slot `id - 1` exactly for ids 1..40, and nothing otherwise. |
| Store.ParkingProvider.ResetSystem | store.tsx:146-153 | Restores the initial slots and default rates, drops all vehicles and transactions, and leaves only the reset log entry. |
| ExitList.EmptySearchKeepsAll | components/ExitList.tsx:18-20 | An empty search term lists every active vehicle. |
| ExitList.SearchKeepsOrder | components/ExitList.tsx:18-20 | The search keeps the vehicles' order, and every listed plate contains the upper-cased term. |
| ExitList.SearchFindsMatches | components/ExitList.tsx:18-20 | A vehicle is listed exactly when it is active and its plate contains the upper-cased term, so no match is left out. |
| ExitList.ExtraItems | components/ExitList.tsx:41-43 | There is exactly one item per selected catalog entry, so never more than the catalog holds. A label is listed exactly when some selected catalog entry carries it. |
| ExitList.ExtraItemsConcat | components/ExitList.tsx:41-43 | The items follow catalog order: a catalog in two parts lists the first part's labels, then the second's. |
| ExitList.ExtraItemsSingle | components/ExitList.tsx:41-43 | One catalog entry gives its label when selected and nothing otherwise. |
| ExitList.ExtraCostIsSelectedSum | components/ExitList.tsx:45-47 | The extra cost is the catalog-wide sum with unselected prices counted as 0. |
| ExitList.ExtraCostNonNegative | components/ExitList.tsx:45-47 | With non-negative prices, the extra cost is non-negative. |
| ExitList.NothingSelected | components/ExitList.tsx:41-47 | With nothing selected there are no items and no extra cost. |
| ExitList.InitialExtras | components/ExitList.tsx:25-28 | Every catalog id gets a key, and it is selected exactly when the vehicle requested it. |
| ExitList.Toggle | components/ExitList.tsx:35 | Flips the one key (an absent key counts as unselected) and leaves every other key as it was. |
| ExitList.PreviewClock | components/ExitList.tsx:77-81 | The preview's hours and minutes split the billed minutes: hours·60 + minutes, with 0 ≤ minutes < 60. |
| ExitList.ProratedNonNegative | components/ExitList.tsx:56 | The per-minute price of a non-negative stay at a non-negative rate is non-negative. |
| ExitList.DiscountBounds | components/ExitList.tsx:59 | A 0–100 % discount lies between 0 and the subtotal, and leaves (100 − p) % of it. |
| ExitList.PreviewTotalNonNegative | components/ExitList.tsx:74-93 | With non-negative rates and prices and a slider value, the previewed base, extras and discount are non-negative, the total is (100 − p) % of the subtotal, and it is non-negative. |
| ExitList.ProratedBelowCharged | components/ExitList.tsx:49-56 | The per-minute price never exceeds the whole-hour base the ledger charges, and is at most one hour's rate below it. |
| ExitList.CardEstimate | components/ExitList.tsx:308-314 | A vehicle card's running cost is the preview's base for that vehicle. |
| ExitList.TerminalCheckoutNeverClamps | components/ExitList.tsx:49-66 | The terminal takes its discount from the per-minute price at its own clock reading; the ledger bills at a second reading, not earlier. The discount is non-negative, the charged total stays non-negative, and so the final amount is exactly base + extras − discount. |
| ExitList.TerminalPriceBelowCharge | components/ExitList.tsx:49-56 | The per-minute price at the terminal's reading is non-negative and never above the whole-hour base at any later reading. |
| ExitList.TerminalReceiptExact | components/ExitList.tsx:41-66 | With the extras and the discount the terminal computes from its catalog, the receipt's final amount is exactly base + extras − discount. |
| ExitList.SettledWithoutClamp | components/ExitList.tsx:58-66 | A discount covered by an amount below the charged base plus the extras is not clamped. |
| ExitList.PreviewDiffersFromCharge | components/ExitList.tsx:74-93 | A 61-minute car stay at $5/h previews 305/60 but is charged $10. |
| ExitList.CheckoutPanel.constructor | components/ExitList.tsx:10-16 | Empty search, no vehicle being checked out, no extras, 0 % discount, no receipt. |
| ExitList.CheckoutPanel.SetSearchTerm | components/ExitList.tsx:292 | Sets the search term only. |
| ExitList.CheckoutPanel.InitiateCheckout | components/ExitList.tsx:22-32 | Selects the vehicle, preselects its requested services and resets the discount to 0. |
| ExitList.CheckoutPanel.ToggleExtra | components/ExitList.tsx:34-36 | Flips exactly one extra. |
| ExitList.CheckoutPanel.SetDiscountPercent | components/ExitList.tsx:158-164 | Takes a slider value (0 to 100, step 5). |
| ExitList.CheckoutPanel.CancelCheckout | components/ExitList.tsx:109 | Clears the vehicle being checked out. |
| ExitList.CheckoutPanel.CloseReceipt | components/ExitList.tsx:205 | Clears the receipt. |
| ExitList.CheckoutPanel.PreviewCostsNow | components/ExitList.tsx:74-94 | With no vehicle being checked out, every preview figure is 0. |
| ExitList.CheckoutPanel.FinalizeCheckout | components/ExitList.tsx:38-72 | With no vehicle, or one the ledger does not know, nothing changes. Otherwise the ledger settles it at its own clock reading `now`, with the selected extras and the discount the terminal took at `terminalNow`. The new ledger is `AfterCheckout` of the old one: transaction recorded, the vehicle gone (so one fewer active vehicle), its slot freed, the exit logged, the rates kept. The receipt is that transaction, and the confirmation closes. When the vehicle is unchanged, `terminalNow` is between entry and `now`, and rates, prices and the discount are in range, the receipt is never clamped. |
| ParkingLot.Slice | components/ParkingLot.tsx:16-17 | JavaScript `slice` with non-negative bounds: the sub-sequence when the bounds fit, the rest from `from` when `to` runs past the end, and empty when `from` is at or past the end or after `to`. |
| ParkingLot.ZonesPartition | components/ParkingLot.tsx:15-17 | On the layout, zone A is slots 1–20 and zone B slots 21–40, and together they are the whole lot. |
| ParkingLot.SlotVehicle | components/ParkingLot.tsx:47 | A found vehicle is active and has the slot's (non-empty) vehicle id. |
| ParkingLot.OccupancyFilters | components/ParkingLot.tsx:46-55 | 'all' shows every slot; 'empty' and 'occupied' show exactly the free and the occupied slots, and never the same slot. |
| ParkingLot.TypeFilterShowsParkedType | components/ParkingLot.tsx:46-55 | On a consistent ledger, a type filter shows a slot exactly when a vehicle of that type is parked in it, so it never shows a free slot. |
| ParkingLot.BandOf | components/ParkingLot.tsx:57-62 | The distance band is decided by id ≤ 10, ≤ 20, ≤ 30 or beyond, in both directions. |
| ParkingLot.BandsMonotone | components/ParkingLot.tsx:57-62 | Higher ids are never nearer, and two ids show the same distance text exactly when they share a band. |
| ParkingLot.BandsMatchLayout | components/ParkingLot.tsx:57-62 | The two nearest bands are zone A, and the priority slots are exactly the 20 m and 80 m bands. |
| ParkingLot.CurrentBillIsChargedBase | components/ParkingLot.tsx:131-136 | The detail panel's running bill (whole hours times the rate) equals the base the ledger would charge now. |
| ParkingLot.SlotBill | components/ParkingLot.tsx:124-136 | A slot has a running bill exactly when its vehicle is found. |
| ParkingLot.QuickCheckoutChargesBase | components/ParkingLot.tsx:33-40 | A quick checkout has no extras and no discount, so with non-negative rates its amount is exactly the base. |
| ParkingLot.MapView.constructor | components/ParkingLot.tsx:11-13 | No slot selected, no receipt, filter 'all'. |
| ParkingLot.MapView.SetFilter | components/ParkingLot.tsx:275 | Sets the filter only. |
| ParkingLot.MapView.SlotClick | components/ParkingLot.tsx:28-31 | Selects the slot and hides the receipt. |
| ParkingLot.MapView.CloseDetails | components/ParkingLot.tsx:151 | Deselects the slot. |
| ParkingLot.MapView.QuickCheckout | components/ParkingLot.tsx:33-44 | An unknown id changes nothing. Otherwise the ledger settles it with no extras and no discount: the new ledger is `AfterCheckout` of the old one, with one fewer active vehicle. The receipt shows its plate, amount and billed minutes. |
| EntryForm.AvailableSlots | components/EntryForm.tsx:23 | Keeps exactly the free slots, and is empty exactly when every slot is occupied. |
| EntryForm.AvailableSlotsInOrder | components/EntryForm.tsx:23 | The free slots keep increasing id order. |
| EntryForm.AutoSelectMeaning | components/EntryForm.tsx:25-34 | A still-offered selection is kept. A missing or stale one is replaced by the first free slot. With no free slot nothing changes. |
| EntryForm.OfferedSlotIsTaken | components/EntryForm.tsx:57-64 | A slot the form offers is one the ledger will take when asked for it. |
| EntryForm.Check | components/EntryForm.tsx:36-55 | The submit checks in source order, each as an if-and-only-if: empty plate skips; parked plate, no selection and full lot each reject with their message; otherwise it proceeds with the selected slot. |
| EntryForm.EnabledSubmitPassesSlotChecks | components/EntryForm.tsx:282 | When the button is enabled, neither slot check can reject, and a new plate proceeds. |
| EntryForm.EntryFormState.constructor | components/EntryForm.tsx:11-21 | Empty fields, type car, no selection, no error, no ticket. |
| EntryForm.EntryFormState.EditFields | components/EntryForm.tsx:11-16 | Sets the six input fields. |
| EntryForm.EntryFormState.SelectSlot | components/EntryForm.tsx:232 | Selects the clicked slot. |
| EntryForm.EntryFormState.SyncSelection | components/EntryForm.tsx:25-34 | Applies the automatic selection, so a free slot is selected whenever one exists. |
| EntryForm.EntryFormState.CloseTicket | components/EntryForm.tsx:129 | Clears the ticket. |
| EntryForm.EntryFormState.Submit | components/EntryForm.tsx:36-79 | Skip leaves everything. A rejection sets its message and leaves the ledger. A proceed either registers or reports the taken slot. On registering, the ticket is shown, the form resets, and the new ledger is `AfterRegister` of the old one: the vehicle is prepended, its slot occupied, the entry logged, transactions and rates kept. The ledger stays consistent. |
| EntryForm.EntryFormState.Register | components/EntryForm.tsx:57-78 | Registers the form's data into the selected slot. On success the ticket is the new vehicle, the new ledger is `AfterRegister` of the old one, and the form resets; otherwise the failure message is set and the ledger is unchanged. |
| EntryForm.EntryFormState.ShowOutcome | components/EntryForm.tsx:66-78 | A vehicle becomes the ticket and the fields reset; no vehicle sets the failure message and keeps the fields. |
| HistoryLog.FilterMeaning | components/HistoryLog.tsx:16-28 | The report keeps exactly the transactions whose entry day is within the set bounds and whose type matches, in their original order. |
| HistoryLog.UnsetFilterKeepsAll | components/HistoryLog.tsx:16-28 | With no date bounds and 'All', every transaction is listed. |
| HistoryLog.RevenueOfFilter | components/HistoryLog.tsx:31 | The revenue is the sum over all transactions with the filtered-out ones counted as 0, and it is non-negative. |
| HistoryLog.LedgerRevenue | components/HistoryLog.tsx:16-31 | Over the ledger's own history, every filter of the report shows a non-negative revenue. |
| HistoryLog.TotalMinutesBounds | components/HistoryLog.tsx:33 | n stays between lo and hi minutes sum to between n·lo and n·hi. |
| HistoryLog.AvgDurationBetween | components/HistoryLog.tsx:32-34 | The average stay lies between the shortest and the longest stay listed. |
| HistoryLog.Cells | components/HistoryLog.tsx:38-46 | A row has one cell per header. |
| HistoryLog.RowLines | components/HistoryLog.tsx:50 | One line per transaction, in order, and a line appears exactly when some transaction renders to it. |
| HistoryLog.CsvContent | components/HistoryLog.tsx:48-50 | The export starts with the `data:text/csv` prefix. |
| HistoryLog.RowColumns | components/HistoryLog.tsx:50 | A row without commas or newlines in its cells splits back into its seven cells. |
| HistoryLog.HeaderColumns | components/HistoryLog.tsx:37-49 | The header line splits back into the seven column names. |
| HistoryLog.BodyIsJoin | components/HistoryLog.tsx:48-50 | The body is the header line and the row lines joined by newlines (an empty report adds an empty line). |
| HistoryLog.HeaderPlain | components/HistoryLog.tsx:37 | The header line holds no newline. |
| HistoryLog.RowPlain | components/HistoryLog.tsx:50 | A row whose cells hold no newline is one line. |
| HistoryLog.LinesPlain | components/HistoryLog.tsx:48-50 | When no cell holds a newline, no line of the body holds one. |
| HistoryLog.CsvLines | components/HistoryLog.tsx:48-50 | The body splits into the header line followed by exactly one line per transaction, in order. |
| Dashboard.AvailableCount | components/Dashboard.tsx:68 | Available plus occupied is the capacity; it is non-negative exactly when no more are occupied than fit. |
| Fees.JsRound | components/Dashboard.tsx:69 | `Math.round`: the nearest integer, halves rounding up (also used for the average stay in components/HistoryLog.tsx). |
| Dashboard.OccupancyRateBounds | components/Dashboard.tsx:69 | With no more occupied than the capacity, the rate is a percentage: empty 0, full 100. |
| Dashboard.SameFlagsSameCount | components/Dashboard.tsx:66 | Slots with the same occupancy flags count the same. |
| Dashboard.FreeingOneSlot | components/Dashboard.tsx:66 | Freeing one slot lowers the occupied count by one. |
| Dashboard.OccupiedSlotsAreActiveVehicles | components/Dashboard.tsx:66 | On a consistent ledger, the occupied slots are exactly as many as the active vehicles. |
| Dashboard.OccupiedCountAgrees | components/Dashboard.tsx:63-66 | So the overview count and the per-slot count agree. |
| Dashboard.TodayRevenueMeaning | components/Dashboard.tsx:71-73 | Today's revenue counts each exit of today once and nothing else, and lies between 0 and the all-time revenue. |
| Dashboard.LedgerTodayRevenue | components/Dashboard.tsx:71-73 | Over the ledger's own history, today's revenue lies between 0 and the all-time revenue. |
| Dashboard.CurrentRevenueMock | components/Dashboard.tsx:85-87 | The chart point is positive and equals the real figure whenever that is positive. |
| Dashboard.TypeCountsSum | components/Dashboard.tsx:89-93 | The car, bike and truck slices add up to the active vehicles. |
| Settings.ApplyEdit | components/Settings.tsx:103-107 | A zone edit changes exactly the one named field. |
| Settings.WithoutZone | components/Settings.tsx:111 | Drops exactly the zone at the index and keeps the others in order. |
| Settings.CapacityAfterZoneChanges | components/Settings.tsx:96-113 | Adding a zone adds 10 to the total capacity, removing one subtracts its capacity, and editing a capacity changes the total by the difference. |
| Settings.BranchFrom | components/Settings.tsx:72-79 | The submitted branch keeps the form's id, name and zones, and its capacity is their sum. |
| Settings.BranchSubmit | components/Settings.tsx:70-94 | Editing asks for an update. Otherwise a taken id is rejected and nothing is asked; a new id asks for a creation whose id is not taken. |
| Settings.WithRole | components/Settings.tsx:296-302 | An admin gets branch "", staff the first branch's id or "", and nothing else changes. |
| Settings.SettingsPanel.constructor | components/Settings.tsx:8-37 | Starts from the ledger's rates with no changes, a one-zone "Main Zone" form, closed dialogs and a blank staff user. |
| Settings.SettingsPanel.SyncRates | components/Settings.tsx:40 | The edited table follows the saved one. |
| Settings.SettingsPanel.HandleRateChange | components/Settings.tsx:43-50 | Accepts only a parsed, non-negative rate for that type. The changed flag then holds exactly when the edited table differs from the saved one. Anything else changes nothing, and non-negative tables stay non-negative. |
| Settings.SettingsPanel.SaveRates | components/Settings.tsx:52-56 | Hands the edited table to the ledger: the new ledger is `AfterRatesUpdate` of the old one, so the rates are replaced, the change is logged, and slots, vehicles and transactions stay. It also clears the changed flag and reports success. |
| Settings.SettingsPanel.OpenBranchModal | components/Settings.tsx:59-68 | Loads the branch for editing, or a fresh form with one 20-slot "Zone A", and opens the dialog. |
| Settings.SettingsPanel.AddZone | components/Settings.tsx:96-101 | Appends exactly one zone `z{n+1}`, "New Zone", 10, standard, keeping the others; the total grows by 10. |
| Settings.SettingsPanel.UpdateZone | components/Settings.tsx:103-107 | Changes one field of one zone and nothing else. |
| Settings.SettingsPanel.RemoveZone | components/Settings.tsx:109-113 | Removes the zone only when more than one exists, so the list never becomes empty. |
| Settings.SettingsPanel.HandleBranchSubmit | components/Settings.tsx:70-94 | Returns the request. A duplicate keeps the dialog open with no feedback; otherwise the matching message is shown and the dialog closes. |
| Settings.SettingsPanel.ChangeRole | components/Settings.tsx:296-302 | Applies the role rule to the user form. |
| Settings.SettingsPanel.HandleResetClick | components/Settings.tsx:155 | Opens the PIN dialog with an empty PIN and no error. |
| Settings.SettingsPanel.HandleVerify | components/Settings.tsx:156-165 | The PIN "1234" resets the ledger, closes the dialog and reports; any other PIN only sets the error and leaves the ledger unchanged. |

## Left out

- Rendering (JSX, CSS, icons, charts, modals as markup) and `window.print`: not behaviour of the ledger.
- `App.tsx` (layout, navigation, login screen) and `components/AIAssistant.tsx` (a call to an external model): outside the core.
- Branch and user storage: `addBranch`, `updateBranch`, `removeBranch`, `registerUser`, `updateUser`, `removeUser`, `login`, `switchBranch`, `branches`, `allUsers` and `currentBranch` are called by the screens but defined in no file of this model. So a branch submit returns the request it would make, and the branch list and the current branch are parameters.
- `openUserModal`, `handleUserSubmit` and the `FileReader` avatar upload in `components/Settings.tsx:116-152`: they only hand the form to the user store above. Only the role rule is modelled.
- The service catalog `SERVICES_DATA` and a vehicle's `requestedServices` are read by the exit terminal but defined in no file of this model. They are parameters.
- The clock (`new Date()`), `Math.random` ids, local-time day bucketing (`setHours(0,0,0,0)`, `toDateString`), `toISOString` and number-to-text conversion are parameters. The CSV lemmas hold for any such functions.
- `encodeURI` and the download link of the CSV export: browser I/O.
- `toFixed(2)` and currency text in the log messages and on screen are modelled by a plain decimal writer, not the browser's number formatting.
- Numbers are exact reals and unbounded integers, so floating-point rounding of prices and rates is not modelled.
- `Text.Upper` upper-cases ASCII letters only; Unicode case mapping is not modelled.
- `parseFloat` and `parseInt` are inputs (`Option<real>` for a rate edit). Partial parses, `NaN` and the `required`/`min` attributes of the inputs are not modelled.
- Settings.SettingsPanel.UpdateZone requires an index within the zone list. The source would write past the end of the list.
- The PIN "1234" is modelled as the guard the source uses, not as a security property.
- React's batching and re-render order: each handler is one atomic step on the state it reads at its start.
- The lot map's quick-checkout `catch` and the terminal's `catch` log to the console. The model returns the ledger's `VehicleNotFound` failure and changes nothing.
- ParkingLot.MapView.QuickCheckout: the amount equals the base only when `now` is not before the entry time, because a clock running backwards would bill a negative base.
- ExitList.PreviewClock: the hours/minutes split is stated for `now` not before the entry time, because JavaScript's `%` of a negative number is negative.
- HistoryLog.CsvLines: the export does no quoting, so the split into lines is stated for cells without newlines.
- HistoryLog.RowColumns: the export does no quoting, so the split into columns is stated for cells without commas or newlines.
- ExitList.TerminalCheckoutNeverClamps and ExitList.CheckoutPanel.FinalizeCheckout: the no-clamp guarantee assumes the ledger's clock reading is not earlier than the terminal's. A clock that goes back between the two readings is not covered.
