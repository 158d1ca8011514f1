# Warehouse stock: outbound fulfilment, goods receipt, transfers, schema migrations

This project models the parts of the goWMS backend in which stock quantities move, and proves what those
parts promise over whole runs. Quantities are exact reals; a database transaction is one atomic step, and a
refused one leaves every table as it was. Verify it with `dafny verify dfyconfig.toml`, or, to see warnings and the
cost of each proof as well, with
`dafny verify --resource-limit 2000000 --verification-time-limit 0 --warn-contradictory-assumptions *.dfy`.

## What is modelled

- **Outbound engine** (`Sums`, `Greedy`, `OutboundTables`, `Fefo`, `ExpiryFirst`, `OutboundSteps`,
  `OutboundEffects`, `Reconcile`, `CounterSale`, `OutboundGuards`): stock balances, pick lists and lines, boxes,
  wave order lines, ledger, reversals, backorders and reconciliations as tables, and every operation on them as a
  function. `OutboundEngine` holds the same tables as the fields of a class; its methods carry the original's loops,
  early exits and roll-backs and are proved equal to those functions. `OutboundInvariant`, the `...Keeps` modules,
  `Postings`, `OutboundRuns`, `WaveRuns`, `ShipBalance`, `LineStates`, `BenchStock` and `LettingGo` prove what holds
  after any sequence of operations in any order, counter sales included; `OutboundExamples` and `WaveExamples` are
  runs from an opening state to where a hoped-for law fails.
- **Packers at the same time** (`PackLock`): the separate steps of a packing transaction (lock, read picked,
  read boxed, insert, commit) for any number of packers, under any hash of the item code.
- **Goods receipt posting** (`GrnClose`), the **RF receiving wizard** (`RfReceiving`), **transfers between
  warehouses** (`Transfers`), **purchase order merging and folding** (`PoMerge`, `PoFold`), **part
  reconciliation** (`PartRollup`) and the **migration generator** (`MigrationParser`, `MigrationPatterns`,
  `MigrationOrder`, and `MigrationRerun`, which runs a generated file against a database that can refuse).

## What the proofs found

Where a law the design suggests is not a law of the code, the code is modelled as it is, the exact condition is
proved, and a run from an opening state shows that the failing side is reached.

- `ConsumeReserved` (`api/modules/shared/allocation.go:104-133`) never refuses: it lowers both quantities and
  stops at zero. Together with the 0.01% pick tolerance a pick can add stock. It conserves the total exactly
  when the source row holds the quantity (`PickKeeps.PickConservesIff`), and keeps the row's reservation equal
  to its open lines exactly when the row reserves it (`PickKeeps.PickKeepsReservationIff`). The conservation
  bound over runs therefore carries an over-pick term, which `OutboundExamples.OverPickMakesStock` needs.
- Neither `AssignToBox` nor `reverseItem` looks at whether the box has already left. Ledger and boxes stay in
  agreement exactly as long as no box is touched after it left (`ShipBalance.BalanceKeptIff`,
  `WaveExamples.LateReversalUnbalances`).
- Closing a wave disposes of what the pick lines say is unpacked, without looking at what is at the bench, and no
  adjustment is refused, so a bench row can fall below zero. Every row reserves between zero and what it holds in
  every state of a run exactly when each reconciliation of it disposes of nothing, or of no more of any item than
  the bench holds (`BenchStock.ReconcileSignIff`, `BenchStock.RunBackedIff`). `WaveExamples.WrittenOffAndShipped`
  reaches a bench at minus four thousand. The conservation bound (`OutboundRuns.RunConserves`) counts such a row
  as it stands, that is, as stock on hand below zero.
- That run also lets go of fourteen thousand units of ten thousand picked. What a list ships and writes off stays
  within what was picked exactly as long as each box shipped and each leftover written off fits in the rest
  (`LettingGo.WithinPickedIff`); it always does when nothing is packed after a write-off and nothing reversed out
  of a box that has left (`LettingGo.RunLetsGoOnce`), and the code enforces neither. The guard it lacks is the
  ceiling of `AssignToBox` with what was written off and what was reversed late counted too, and checked by a
  write-off as well (`LettingGo.ClaimsFitIff`, `LettingGo.RunStaysWithin`).
- Marking a box loaded at the bench before it is linked to a list makes it count as gone, so what is packed into it
  later never leaves the books (`ShipBalance.BenchMarkForfeits`, `WaveExamples.MarkedBoxNeverPosts`).
- Reversing lowers the box but not the order line, so what orders were given is what boxes hold plus what was
  reversed (`WaveRuns.WaveRun`, `WaveExamples.GivenIsNotBoxed`).
- The pick that completes a list closes it; a wave closed that way is never reconciled, so its leftover is
  neither returned nor written off (`WaveRuns.PickForfeitsIff`, `WaveExamples.LastPickForfeitsLeftover`).
- Whether an order is incomplete is judged on its totals, so an over-consolidated item hides the shortage of
  another (`ReconcileKeeps.ShortageBackorderedIff`, `WaveExamples.OverConsolidationHidesShortage`).
- Changing a damaged quantity after a partial close makes incremental and one-shot posting differ, unless that
  close would have posted the same under the new quantity (`GrnClose.DamageChangeIff`,
  `GrnClose.LateDamageStaysGood`). A code repeated on a purchase order is credited once per copy
  (`GrnClose.PoRisesByDeltaIff`, `GrnClose.RepeatedCodeIsCreditedTwice`).
- Sign-off keeps the exception log right exactly when no carton it marks shares its normalised number with
  another that is awaited, missing or received (`RfReceiving.SignOffTracksIff`,
  `RfReceiving.SharedNumberIsNotTracked`); no constraint enforces that. A box completed while marked missing keeps
  its exception open through every further step of the wizard (`RfReceiving.CompletedWhileMissingIff`,
  `RfReceiving.CompletedWhileMissing`).
- A transfer received into the transit location itself, or shipped out of one, breaks the law of the transit
  location; the code only checks the target's warehouse (`Transfers.ReceiveKeepsTransitIff`,
  `Transfers.ReceivedIntoTransit`, `Transfers.ShipKeepsTransitIff`, `Transfers.ShippedOutOfTransit`).
- A source named on a transfer may lie in any warehouse: a shipment lowers only its from-warehouse exactly when
  every named source lies there (`Transfers.ShipsBetweenIff`, `Transfers.ShippedFromElsewhere`).
- Shipping a transfer takes stock that is reserved, when a caller names the source, or when a line without a batch
  is matched to a row that has one (`Transfers.LineKeepsCoveredIff`, `Transfers.NamedSourceTakesPromised`,
  `Transfers.BlankBatchTakesNothing`).
- Folding loses the quantity of repeated codes when the first of them is written with blanks around it
  (`PoFold.FoldExpectedIff`, `PoFold.BlankLosesQuantity`).
- A generated migration file, once it has run to its end, can be run again with nothing changed exactly when
  each statement is a setting or has a guard that finds what it looks for (`MigrationRerun.RunTwiceIff`,
  `MigrationRerun.GeneratedTwiceIff`). A constraint with a quoted name gets no guard and stops the file the second
  time (`MigrationRerun.QuotedNameStopsRerun`); one named `a$b` is guarded as `a`, so it stops the file the second
  time or, where there is an `a`, is never made (`MigrationRerun.DollarNameStopsRerun`); an index
  without a name gets a guard that is not valid, and stops it every time (`MigrationRerun.UnnamedIndexStops`).

## Model

| member | source | states |
|---|---|---|
| ExpiryFirst.RowsRise | api/modules/shared/allocation.go:32-69 | an allocation changes nothing of a row but its reservation, which rises by no more than is free, and only on an enabled storage or pick-face row of the item in the list's warehouse |
| ExpiryFirst.SoonerIsUsedUp | api/modules/shared/allocation.go:48-51 | if a row's reservation rose, every such row with an earlier date, or with one where the other has none, or with the same and a lower id, has nothing free left |
| ExpiryFirst.AllocationMeets | api/modules/fulfillment/allocate.go:33-58 | reservations rise by the smaller of the need and what those rows have free, added up over the table |
| ExpiryFirst.FefoByDate | api/modules/fulfillment/allocate.go:33-58 | for every date, no plan over those rows that meets at most the need takes more from rows expiring by it than the allocation does, and the allocation is such a plan |
| ExpiryFirst.LineDrawsOn | api/modules/fulfillment/allocate.go:44-66 | each line written is for what one row's reservation rose by, with its place and date, or, last and if asked for, for the rest of the need |
| ExpiryFirst.LinesInDateOrder | api/modules/fulfillment/allocate.go:35-57 | no two of them draw on one row, nor a later one on a row that expires sooner |
| ExpiryFirst.RisenHasLine | api/modules/fulfillment/allocate.go:44-66 | every row whose reservation rose has its line, and a shortage has one if asked for |
| OutboundEngine.SliceStep | api/modules/fulfillment/allocate.go:33-58 | whatever has been reserved so far, what the next turn takes is positive and no more than is free on its row, so that its reservation is not refused |
| Fefo.AllocationTotals | api/modules/fulfillment/allocate.go:25-68 | the allocation reserves the smaller of need and availability, writes ordered quantities that sum to the need, and one shortage row exactly when stock falls short; without that row the slices are the same |
| OutboundEngine.Engine.ReserveBalance | api/modules/shared/allocation.go:72-88 | refuses exactly when less than the quantity is free, and changes nothing but that row's reservation |
| OutboundEngine.Engine.AllocateFEFO | api/modules/fulfillment/allocate.go:25-68 | the loop with its early exit reserves and writes what the specification says; none of its reservations is refused |
| OutboundEngine.Engine.SellLine | api/modules/countersale/handler.go:181-229 | the counter's inline loop reserves the same slices without a shortage row and reports need less availability as short |
| OutboundEngine.Engine.CreateSession | api/modules/countersale/handler.go:178-237 | a cart is allocated line by line, its shortages listed, and rolled back when nothing could be reserved |
| CounterSale.SoldOrShort | api/modules/countersale/handler.go:181-230 | what a cart asks for of every item is reserved or reported short, to the last unit |
| ExpiryFirst.LastShortage | api/modules/countersale/handler.go:181-230 | a demand is reported short by exactly what it asks for beyond what its rows have free after the demands before it, and not at all when that is enough |
| ExpiryFirst.CartHasNoShortageLine | api/modules/countersale/handler.go:208-216 | a cart writes lines for what it reserves only, each with its row |
| OutboundSteps.BestLine | api/modules/fulfillment/confirm_pick.go:84-98 | a scan without a line id addresses the scannable line no other precedes: scanned bin first, then expiry, then id |
| OutboundGuards.ScanChooses | api/modules/fulfillment/confirm_pick.go:84-98 | a scan without a line id is for the line of the list and item, still to be picked and in the scanned bin or none, that comes first: scanned bin, then earliest date with none last, then lowest id; it finds none only when there is none |
| OutboundGuards.PickGoesThroughIff | api/modules/fulfillment/confirm_pick.go:45-135 | a pick goes through exactly on a list with a bench and a purpose, for the line it names or the first in scan order, if that is open, holds the item scanned, lies in the bin scanned unless overridden, and stays within the target plus a ten-thousandth |
| OutboundGuards.PickSettles | api/modules/fulfillment/confirm_pick.go:161-180 | it completes a list exactly when nothing is left to pick on it and not all of it was shipped, opens a drafted one, and changes no other |
| LineStates.PickSets | api/modules/fulfillment/confirm_pick.go:150-159 | it changes one line: picked rises by the quantity, and the line is picked exactly when that reaches the allocation within the tolerance, in progress when not |
| LineStates.ScanFindsUnpicked | api/modules/fulfillment/confirm_pick.go:84-98 | over any run a scan without a line id never addresses a line picked to its allocation |
| BenchStock.PickFillsBench | api/modules/fulfillment/confirm_pick.go:137-149 | it adds its quantity to what the list's bench holds of the item, and to nothing else on any bench |
| OutboundEngine.Engine.PickLine | api/modules/fulfillment/confirm_pick.go:137-180 | stock moves from source to bench, the line advances, the list opens and completes as specified |
| OutboundEngine.Engine.ConfirmPick | api/modules/fulfillment/confirm_pick.go:37-200 | the operation refuses and changes the tables exactly as its specification does |
| PickKeeps.PickKeeps | api/modules/fulfillment/confirm_pick.go:137-180 | a pick keeps every clause of the invariant although consumption stops at zero |
| PickKeeps.PickConservesIff | api/modules/shared/allocation.go:104-133 | a pick leaves every item's total stock unchanged if and only if the source row holds the picked quantity |
| PickKeeps.PickKeepsReservationIff | api/modules/fulfillment/confirm_pick.go:137-142 | a reservation equal to the row's open lines stays equal if and only if the row reserves what is picked |
| OutboundExamples.OverPickMakesStock | api/modules/fulfillment/confirm_pick.go:126-149 | a run of three operations after which nothing has shipped and there is one unit more than at the start |
| OutboundEngine.Engine.AssignToBox | api/modules/fulfillment/assign_box.go:22-152 | refuses exactly beyond the picked total plus a ten-thousandth, otherwise inserts the box item and spreads the quantity |
| OutboundEngine.Engine.SpreadOverLines | api/modules/fulfillment/assign_box.go:85-133 | the spreading loop is the greedy spread over the room left on each line, lowest id first |
| OutboundEffects.PackingSpread | api/modules/fulfillment/assign_box.go:85-133 | spreading raises a list's packed total by the quantity, up to its picked total |
| OutboundEffects.PackingInOrder | api/modules/fulfillment/assign_box.go:85-133 | a line is given something only when every line of the list and item before it holds all that was picked |
| OutboundGuards.AssignGoesThroughIff | api/modules/fulfillment/assign_box.go:30-83 | an assignment goes through exactly when the box is the list's, something was picked, and the boxes stay within it plus a ten-thousandth; it adds one row |
| PackKeeps.AssignKeeps | api/modules/fulfillment/assign_box.go:45-133 | an assignment keeps every clause of the invariant |
| OutboundEngine.Engine.ReverseItem | api/modules/packing/handler.go:348-463 | refuses beyond the box's content or its newest row, otherwise takes the quantity off that row and off the lines, and logs it |
| OutboundEngine.Engine.TakeOffLines | api/modules/packing/handler.go:408-448 | the give-back loop takes from the highest line id first and stops when nothing remains |
| OutboundEffects.PackingGiveBack | api/modules/packing/handler.go:408-448 | the give-back lowers the packed total by the quantity and never a line below zero |
| OutboundEffects.GiveBackInOrder | api/modules/packing/handler.go:408-448 | a line is taken from only when every line of the list and item after it holds nothing any more |
| OutboundGuards.ReverseGoesThroughIff | api/modules/packing/handler.go:348-406 | a reversal goes through exactly when the box, and in it the newest row of the item, holds the quantity; it is taken off that row and logged |
| PackKeeps.ReverseKeeps | api/modules/packing/handler.go:398-448 | a reversal keeps every clause of the invariant, also on a box that has left |
| OutboundEngine.Engine.Consolidate | api/modules/fulfillment/consolidate.go:22-77 | checks the order line, links the box, assigns, and draws down the order line; a refused assignment rolls the link back |
| OutboundRuns.ConsolidateKeeps | api/modules/fulfillment/consolidate.go:44-76 | a consolidation keeps every clause of the invariant |
| OutboundGuards.ConsolidateGoesThroughIff | api/modules/fulfillment/consolidate.go:22-77 | a consolidation goes through exactly when the order line has room, the box is free or the list's, and the assignment goes through; the order line rises by it and the box is linked |
| OutboundEngine.Engine.DeliverToLines | api/modules/fulfillment/ship_box.go:123-170 | the delivery loop is the greedy spread over picked less consumed, with the delivered and partly delivered states |
| OutboundEffects.ShippingSpread | api/modules/fulfillment/ship_box.go:123-170 | delivery raises a list's consumed total by the quantity, up to its picked total |
| OutboundEffects.ShippingInOrder | api/modules/fulfillment/ship_box.go:123-170 | a line consumes something only when every line of the list and item before it has consumed all that was picked |
| LineStates.ShipMarks | api/modules/fulfillment/ship_box.go:157-166 | a line of which more is consumed is delivered exactly when that reaches what was ordered, to a ten-thousandth of a unit, and partly delivered when not; every other stays as it was |
| LineStates.RunStates | api/modules/fulfillment/ship_box.go:157-166 | over any run: nothing of a pending line is picked, one in progress is short of its allocation and a picked one is not, a delivered one has been sent what was ordered and a partly delivered one something less |
| OutboundGuards.ShipGoesThroughIff | api/modules/fulfillment/ship_box.go:29-115 | a box that has not left ships exactly when it is linked to a list with a purpose and a bench that has, of every item, what the box holds |
| OutboundGuards.ShipmentLeaves | api/modules/fulfillment/ship_box.go:96-122 | shipping lowers what that bench holds of every item by what the box held, to no less than zero, and nothing elsewhere |
| OutboundGuards.ShipmentCloses | api/modules/fulfillment/ship_box.go:177-191 | it flags that box and no other, and closes the list exactly when nothing picked on it is still to ship |
| OutboundGuards.LoadingIs | api/modules/packing/handler.go:490-525 | loading is refused exactly when shipping a linked box is; an unlinked box is gone when marked at the bench and not when loaded onto a trip; nothing else changes |
| OutboundEngine.Engine.ShipContents | api/modules/fulfillment/ship_box.go:96-175 | the loop over a box's items ships all of them or, with one item short at the bench, none |
| OutboundEngine.Engine.ShipBox | api/modules/fulfillment/ship_box.go:13-194 | a box that has left is left alone; otherwise its items ship, it is flagged, and its list closes with the last unit |
| OutboundEngine.Engine.MarkLoaded | api/modules/packing/handler.go:465-525 | loading at the bench ships a linked box once and marks an unlinked one as gone |
| OutboundEngine.Engine.LoadBox | api/modules/dispatch/handler.go:231-294 | loading onto a trip ships a linked box once and only flags an unlinked one |
| ShipKeeps.ShipKeeps | api/modules/fulfillment/ship_box.go:29-191 | shipping keeps every clause of the invariant |
| ShipKeeps.LoadingKeeps | api/modules/packing/handler.go:490-518 | every other entry point that loads a box keeps them too |
| Postings.ShipBoxPosts | api/modules/fulfillment/ship_box.go:67-175 | shipping posts, item by item, exactly what is in the box and touches no other box's entries |
| ShipBalance.BalanceKeptIff | api/modules/packing/handler.go:373-406 | a step keeps ledger and boxes in agreement if and only if it changes no box that has left |
| ShipBalance.LedgerIsBoxes | api/modules/fulfillment/ship_box.go:172-180 | over every such run the ledger has let go exactly the content of boxes that left, and nothing for the others |
| ShipBalance.GoneIsGone | api/modules/fulfillment/ship_box.go:29-31 | once a box has left, nothing more is posted for it over any run, whatever is put into it and however often and wherever it is loaded |
| ShipBalance.BenchMarkForfeits | api/modules/packing/handler.go:511-513 | a box marked loaded at the bench before it is linked never posts what any later run packs into it; loading it onto a trip does not do that |
| AllocateKeeps.AllocateKeeps | api/modules/fulfillment/allocate.go:33-66 | an allocation keeps every clause of the invariant, each reserved slice being matched by an open line |
| OutboundRuns.RunKeeps | api/modules/fulfillment/ship_box.go:13-194 | every state reachable by any run of the thirteen operations satisfies every clause |
| OutboundRuns.RunConserves | api/modules/fulfillment/ship_box.go:96-175 | stock on hand less ledger exceeds opening stock by between zero and a ten-thousandth unit per shipment plus what was over-picked, which is at most a ten-thousandth of what was allocated; without over-picks the second part vanishes; a bench row below zero counts as it stands |
| BenchStock.RunReserves | api/modules/fulfillment/confirm_pick.go:137-161 | a storage row reserves between zero and what it holds, and between its open lines with and without netting over-picks, exactly that without over-picks; a bench row reserves nothing, and holds no less than nothing when every reconciliation so far found at the bench what it disposed of; no shortage line draws on a row |
| BenchStock.OthersKeep | api/modules/shared/allocation.go:104-133 | no operation but a reconciliation takes a row below zero |
| BenchStock.ReconcileSignIff | api/modules/consolidate/handler.go:258-281 | with no row below zero, a reconciliation leaves none below zero if and only if it disposes of nothing, or of no more of any item than its row at the list's bench holds before the call |
| BenchStock.RunBackedIff | api/modules/shared/stockloc.go:142-211 | in every state of a run every row reserves between zero and what it holds, if and only if each reconciliation of the run disposes of nothing or of no more than the bench holds |
| WaveExamples.WrittenOffAndShipped | api/modules/consolidate/handler.go:518-541 | a run from an opening state after which a bench row is four thousand below zero, and fourteen thousand units were shipped or written off of ten thousand picked |
| LettingGo.StepLetsGo | api/modules/fulfillment/ship_box.go:67-175 | what every step ships and writes off, list by list and item by item: the content of a box that had not left, a sale's picked total, a wave's leftover, and nothing else |
| LettingGo.WithinPickedIff | api/modules/fulfillment/assign_box.go:38-68 | a step keeps shipped and written off together within picked plus a ten-thousandth if and only if what it ships or writes off fits in the rest |
| LettingGo.RunLetsGoOnce | api/modules/fulfillment/assign_box.go:38-68 | over any run they stay within it when nothing is packed for the list after its leftover was written off and nothing reversed out of its boxes that left |
| LettingGo.ClaimsFitIff | api/modules/fulfillment/assign_box.go:45-68 | a step keeps boxed, reversed out of boxes that left, and written off together within picked plus a ten-thousandth if and only if what it packs or writes off fits under the ceiling with all three counted |
| LettingGo.RunStaysWithin | api/modules/fulfillment/assign_box.go:45-68 | over any run whose packing and write-offs pass that ceiling, shipped and written off stay within it |
| OutboundRuns.RunPacks | api/modules/fulfillment/assign_box.go:45-133 | packed stays within picked line by line; boxes hold what is packed plus at most a ten-thousandth of what is picked |
| OutboundRuns.RunShips | api/modules/fulfillment/ship_box.go:123-191 | at most one shipment per box and item; consumed stays within picked line by line; shipped exceeds consumed by at most a ten-thousandth of picked plus late reversals |
| OutboundInvariant.UnbackedIsOverPick | api/modules/fulfillment/confirm_pick.go:126-135 | reservations beyond the open lines are at most what was over-picked, which is at most a ten-thousandth of what was allocated |
| OutboundEngine.Engine.CompleteSession | api/modules/countersale/handler.go:439-499 | a list that is no counter sale, or has open picks, is refused; otherwise a box is opened, every item's picked total boxed and the box shipped, or all of it rolled back |
| CounterSale.BoxHoldsPicked | api/modules/countersale/handler.go:468-496 | after the boxing loop the box holds of each item exactly what was picked |
| CounterSale.CompleteSaleKeeps | api/modules/countersale/handler.go:439-499 | completing a sale keeps every clause of the invariant |
| CounterSale.SaleShipsWhatWasPicked | api/modules/countersale/handler.go:490-499 | a completed sale has sent out of every item exactly what was picked, consumed every line and closed the list |
| OutboundGuards.SaleGoesThroughIff | api/modules/countersale/handler.go:439-499 | a sale can be completed exactly when nothing is left to pick, its boxes leave room for what was picked of every item, and its bench has it |
| WaveRuns.WaveRun | api/modules/fulfillment/consolidate.go:32-76 | on a wave packed only by consolidation, given equals boxed plus reversed, equals boxed exactly when nothing was reversed; order lines stay within requirement and given less reversed within picked, up to a ten-thousandth |
| WaveRuns.DisposedOnce | api/modules/consolidate/handler.go:342-364 | over any run a wave is reconciled at most once and all that was written off for it is the leftover logged |
| WaveRuns.CompletedIsFinal | api/modules/consolidate/handler.go:362-364 | nothing reconciles a list any more once it is completed |
| WaveRuns.ReconcilableIff | api/modules/consolidate/handler.go:362-411 | some continuation reconciles a list if and only if it is not completed |
| WaveRuns.PickForfeitsIff | api/modules/fulfillment/confirm_pick.go:165-180 | after a pick some continuation reconciles its list if and only if it was open and the pick did not leave it with nothing to pick, unless all of it had been shipped |
| WaveExamples.LastPickForfeitsLeftover | api/modules/fulfillment/confirm_pick.go:165-180 | a run to a list closed by its last pick with all of it unpacked, which no continuation returns or writes off |
| WaveExamples.LateReversalUnbalances | api/modules/packing/handler.go:373-406 | a run after which a reversal out of a box that has left goes through, and ledger and boxes disagree |
| WaveExamples.MarkedBoxNeverPosts | api/modules/packing/handler.go:511-513 | a run to a full box that no continuation posts |
| WaveExamples.GivenIsNotBoxed | api/modules/packing/handler.go:398-448 | a run after which an order counts as given more than is boxed |
| OutboundEngine.Engine.ReturnLeftoverToStock | api/modules/consolidate/handler.go:481-514 | the loop moves each leftover from the bench to storage, or stops when there is nowhere to put it |
| OutboundEngine.Engine.WriteOffLeftover | api/modules/consolidate/handler.go:518-541 | the loop removes each leftover and posts it |
| OutboundEngine.Engine.BackorderShortages | api/modules/consolidate/handler.go:433-444 | the loop backorders what incomplete orders are short of, order by order |
| OutboundEngine.Engine.Reconcile | api/modules/consolidate/handler.go:326-476 | refusals, resolutions, roll-back and closing as specified |
| OutboundGuards.GoesBackTo | api/modules/consolidate/handler.go:481-514 | leftover goes where most of the item lies in storage in the warehouse, or else to its first storage location, and has nowhere to go only without either |
| OutboundGuards.CloseGoesThroughIff | api/modules/consolidate/handler.go:362-424 | closing goes through exactly for a list closed already, a wave with nothing left and no order short, or one forced with a reason, the right to and, if stock is left, a resolution that can be carried out for every item |
| OutboundGuards.CloseLogs | api/modules/consolidate/handler.go:445-460 | it completes the list and logs what was left and how it was resolved; closing a completed list changes nothing |
| ReconcileKeeps.ReconcileKeeps | api/modules/consolidate/handler.go:413-460 | closing a wave keeps every clause of the invariant |
| ReconcileKeeps.BreakdownOf | api/modules/consolidate/handler.go:258-281 | the breakdown lists of each item all of its unpacked quantity when that exceeds the tolerance, and nothing otherwise |
| ReconcileKeeps.ReconcileMoves | api/modules/consolidate/handler.go:413-424 | return to stock conserves each item's total; write-off lowers it and the ledger by exactly the leftover; nothing else moves stock |
| ReconcileKeeps.ReconcileInWarehouse | api/modules/consolidate/handler.go:481-541 | the same warehouse by warehouse: leftover goes back into the warehouse it was packed in, and write-off lowers no other |
| ReconcileKeeps.UnforcedIsClean | api/modules/consolidate/handler.go:381-411 | without force a wave closes only with no leftover and every order complete, and then moves, posts and backorders nothing |
| ReconcileKeeps.ShortageBackorderedIff | api/modules/consolidate/handler.go:225-254 | a short item is backordered in full if its order counts as incomplete as a whole, and not at all if it does not |
| ReconcileKeeps.EveryOrderIsCovered | api/modules/consolidate/handler.go:543-565 | with no line over-consolidated, consolidated and backordered cover every requirement to within the tolerance |
| WaveExamples.OverConsolidationHidesShortage | api/modules/consolidate/handler.go:246-250 | a run to a wave that closes without force while a missing item is neither consolidated nor backordered |
| PackLock.NeverOverPacked | api/modules/fulfillment/assign_box.go:30-83 | for any number of packers, any interleaving with picks and reversals, and any hash, boxed stays within picked plus a ten-thousandth |
| PackLock.RunIsSerial | api/modules/fulfillment/assign_box.go:30-83 | every concurrent run has the same picked and boxed quantities as a serial one that checks and assigns in one go, in commit order |
| PackLock.CommitIsSerial | api/modules/fulfillment/assign_box.go:45-83 | the assignments of a committing transaction each pass the ceiling check on what is committed at that moment |
| PackLock.CollisionsOnlySerialise | api/modules/fulfillment/assign_box.go:32-34 | every run under a hash that collides is a run under locks that tell all items apart |
| PackLock.WaitsIff | api/modules/fulfillment/assign_box.go:32-34 | a packer waits exactly while somebody else holds a lock of the same list for an item with the same hash |
| PackLock.AssignsIff | api/modules/fulfillment/assign_box.go:45-83 | a packer nobody interrupts adds its quantity exactly when it fits, with what is committed and its own earlier assignments, within picked and a ten-thousandth, and otherwise gives its whole transaction up |
| PackLock.UnlockedPackersRace | api/modules/fulfillment/assign_box.go:30-34 | without the lock two packers box twice what was picked |
| PackLock.NearCodesDiffer | api/modules/fulfillment/assign_box.go:154-161 | two codes that differ in one byte have different hashes, as each step of the hash can be undone |
| GrnClose.GrnSession.PostParts | api/modules/grn/handler.go:946-1015 | of what is new on a line the damaged part, capped by it, goes to damaged and the rest to hold with an inspection or to incoming |
| GrnClose.GrnSession.PostNewlyScanned | api/modules/grn/handler.go:941-1034 | the posting loop over all lines, with ledger entries and counters |
| GrnClose.GrnSession.SumByItem | api/modules/grn/handler.go:1061-1067 | the map holds the new quantity of every code |
| GrnClose.GrnSession.CreditRows | api/modules/grn/handler.go:1068-1076 | whatever order the map yields its keys in, every row is credited its code's quantity once |
| GrnClose.GrnSession.CloseSession | api/modules/grn/handler.go:854-1144 | refuses a closed session, otherwise posts, credits the order and sets the state |
| GrnClose.GrnSession.CloseWithShortages | api/modules/grn/completion.go:198-250 | a partial close needs an active session with something scanned, and leaves it open for more |
| GrnClose.GrnSession.FinalizeGrn | api/modules/grn/completion.go:525-574 | refuses when stock has been posted before, and, unless forced, before verification or with exceptions open |
| GrnClose.CloseMovesAlike | api/modules/grn/handler.go:941-1034 | in one close locations, ledger and counters move by the same amount of every item, and hold by what inspections are raised for |
| GrnClose.IncrementalIsOneShot | api/modules/grn/handler.go:896-1034 | closing at one level and again at a higher one leaves the stock at every place, the ledger and inspection totals and the lines of a single close |
| GrnClose.IncrementalPo | api/modules/grn/handler.go:1053-1108 | and the rows, percentage and state of the order |
| GrnClose.PoRisesByDeltaIff | api/modules/grn/handler.go:1068-1076 | an item's received quantity rises by exactly its delta if and only if the delta is zero or one row carries the code |
| GrnClose.OrderAfterClose | api/modules/grn/handler.go:1053-1108 | a close that brings something new credits each row with its code's quantity; the percentage is received against ordered, cut off at a hundred, and the order is received, billed, both or neither exactly as those quantities say |
| GrnClose.ClosesIff | api/modules/grn/completion.go:198-250 | who may close: partly a session under way with something scanned, at the desk any that is not over, finally one with nothing posted before and, unless forced, verified and without open exceptions |
| GrnClose.OverIsFinal | api/modules/grn/handler.go:866-868 | once a session is closed or completed no continuation posts anything or opens it again |
| GrnClose.PostedIsNotFinalised | api/modules/grn/completion.go:537-545 | nor is one finalised that has posted stock before |
| GrnClose.DamageChangeIff | api/modules/grn/handler.go:946-958 | a damaged quantity changed between two closes leaves the damaged location as a single close would if and only if the first close posts the same under the old and the new quantity |
| GrnClose.LateDamageStaysGood | api/modules/grn/handler.go:946-958 | a run in which damage found after a partial close ends elsewhere than damage found before it |
| GrnClose.RepeatedCodeIsCreditedTwice | api/modules/grn/handler.go:1068-1076 | a run in which five units received of a repeated code are ten on the order |
| GrnClose.PostedIsHighWater | api/modules/grn/handler.go:904-945 | a line's posted quantity is the running maximum of what was scanned at the closes |
| GrnClose.RunSplits | api/modules/grn/handler.go:946-1015 | with damage fixed, over any run of a session that has posted nothing yet exactly the smaller of damaged and posted is in damaged and the rest in hold or incoming |
| GrnClose.RunBoundsDamaged | api/modules/grn/handler.go:946-958 | when damage only grows, never more than that is in damaged |
| GrnClose.RunAgrees | api/modules/grn/handler.go:941-1034 | over any run at all locations, ledger and posted quantities agree on every item |
| GrnClose.RunReceives | api/modules/grn/handler.go:1053-1108 | over any run on an order with unique codes, whatever earlier sessions received on it, received rises by exactly what was posted, and no step lowers the percentage |
| RfReceiving.RunKeeps | api/modules/grn/rf_scan.go:336-411 | over every run from a fresh list, of cartons that share their number with no other, a missing one has one open exception, an expected, pending or received one none; of those that share one, the first has an open exception while missing; at most one sign-off; nothing missing before it, and after it no expected carton is waited for |
| RfReceiving.SignOffTracksIff | api/modules/grn/rf_scan.go:629-690 | a first sign-off leaves every carton with the exceptions it should have if and only if no carton it marks shares its number with another that is awaited, missing or received |
| RfReceiving.SharedNumberIsNotTracked | api/modules/grn/rf_scan.go:629-690 | a run in which two boxes with one number have two open exceptions each |
| RfReceiving.CompletedWhileMissingIff | api/modules/grn/rf_scan.go:1001-1015 | no continuation by the wizard's steps closes an open missing-box exception under the number of a completed carton, and while there is one none moves the session on to putaway; there is one if the carton was completed while marked missing, and, with a number of its own, exactly one if and only if it was |
| RfReceiving.CompletedWhileMissing | api/modules/grn/rf_scan.go:1001-1015 | a run to a verified carton with an open missing-box exception |
| RfReceiving.StaysOpen | api/modules/grn/rf_scan.go:336-370 | no step of the wizard closes an exception under the number of a verified carton that a scan of the number finds, and only a sign-off still to come adds one, for another carton with that number |
| RfReceiving.CompletionMovesIff | api/modules/grn/rf_scan.go:1135-1149 | completing a box verifies that carton and moves the session on exactly when every carton is then verified and as many as were announced: to wait for exceptions if one is open, for putaway if none is |
| RfReceiving.PutawayMeansVerified | api/modules/grn/rf_scan.go:1135-1149 | over any run from a fresh list in receiving, putaway is waited for only when every carton is verified |
| RfReceiving.ConfirmIs | api/modules/grn/rf_scan.go:293-435 | a scan receives the first carton with its number if that is still to come, resolves what waited for it, and logs how it came; a carton counted before is left alone |
| RfReceiving.SignOffGoesIff | api/modules/grn/rf_scan.go:472-586 | a sign-off needs one received box, and only the first one changes anything |
| RfReceiving.SignOffIs | api/modules/grn/rf_scan.go:629-690 | it marks every expected carton nobody has seen, with one exception and one event each, and moves on to item verification |
| RfReceiving.VariancesAre | api/modules/grn/rf_scan.go:1060-1095 | one exception for each line of a box counted short, and one for each counted over |
| RfReceiving.RfSession.Confirm | api/modules/grn/rf_scan.go:293-435 | counting, duplicate, damage and late-arrival branches |
| RfReceiving.RfSession.MarkUnsignedMissing | api/modules/grn/rf_scan.go:629-690 | the loop marks every expected carton nobody scanned, with one exception and one event each |
| RfReceiving.RfSession.SignOff | api/modules/grn/rf_scan.go:472-586 | needs one received box, is idempotent, marks and logs |
| RfReceiving.RfSession.Complete | api/modules/grn/rf_scan.go:954-1150 | verifies the box, logs its variances, and moves the session on with the last box |
| Transfers.RunConserves | api/modules/inventory/handler.go:428-607 | over any run the total of every item and batch never changes |
| Transfers.RunKeepsTransit | api/modules/inventory/handler.go:441-597 | over any interleaving that stays away from transit locations, each holds exactly the lines on their way to its warehouse, on top of its opening stock |
| Transfers.TransitCovers | api/modules/inventory/handler.go:585-597 | so the deduction whose error is ignored is always covered |
| Transfers.ShipKeepsTransitIff | api/modules/inventory/handler.go:469-508 | shipping keeps that law if and only if no line of the item names the transit location as its source |
| Transfers.ShippedOutOfTransit | api/modules/inventory/handler.go:469-508 | a transfer shipped out of a transit location that opened without any |
| Transfers.ReceiveKeepsTransitIff | api/modules/inventory/handler.go:552-597 | receiving keeps it everywhere if and only if the target is not the transit location, or the transfer is empty |
| Transfers.ShipsBetweenIff | api/modules/inventory/handler.go:475-503 | a shipment moves of every item and batch exactly what it sends out of its from-warehouse and into its to-warehouse, and leaves every other as it is, if and only if every source it names lies in the from-warehouse |
| Transfers.ShippedFromElsewhere | api/modules/inventory/handler.go:475-503 | a shipment taken out of the warehouse it is sent to |
| Transfers.ReceivedIntoTransit | api/modules/inventory/handler.go:552-597 | a transfer received where it already lay |
| Transfers.DraftedIff | api/modules/inventory/handler.go:302-368 | a transfer is drafted between two different warehouses for lines of which it keeps exactly those with a code and a quantity |
| Transfers.ShipmentIs | api/modules/inventory/handler.go:428-518 | only a draft ships; each line leaves the place noted for it for the destination's transit location, and nothing else moves |
| Transfers.ReceiptIs | api/modules/inventory/handler.go:520-607 | exactly what is on its way is received, into a chosen place of the destination or its incoming location, where all of it arrives |
| Transfers.LineKeepsCoveredIff | api/modules/inventory/handler.go:477-503 | a shipped line leaves every row at or above its reservation if and only if it is shipped to where it lies, or the row of its item, its batch as written and its source has the quantity free |
| Transfers.LookedUpHasFree | api/modules/inventory/handler.go:480-498 | a source found under the line's own batch has it free; only a line without a batch is matched to another |
| Transfers.SourceExpiresFirst | api/modules/inventory/handler.go:477-498 | a line without a source is taken from the storage or pick-face row of the warehouse that has it free and is first to expire, and is refused only when none has |
| Transfers.ShipKeepsCovered | api/modules/inventory/handler.go:461-508 | a transfer whose lines name a batch and no source takes nothing that is reserved |
| Transfers.NamedSourceTakesPromised | api/modules/inventory/handler.go:475-503 | ten units shipped of which eight were reserved |
| Transfers.BlankBatchTakesNothing | api/modules/inventory/handler.go:480-503 | a line without a batch taken from a row that is not there |
| Transfers.TransferDesk.Create | api/modules/inventory/handler.go:302-368 | checks, and keeps the lines with a code and a positive quantity |
| Transfers.TransferDesk.MoveToTransit | api/modules/inventory/handler.go:461-508 | the loop moves every line to transit or, with one line short, none |
| Transfers.TransferDesk.Ship | api/modules/inventory/handler.go:428-518 | only drafts ship |
| Transfers.TransferDesk.Receive | api/modules/inventory/handler.go:520-607 | only what is on its way is received, into a location of the destination |
| PoMerge.MergeDuplicates | api/modules/po/merge.go:18-55 | the loop with its index map merges as specified |
| PoMerge.MergeConserves | api/modules/po/merge.go:18-55 | merged codes are trimmed, present and distinct in capitals, and each line carries the whole quantity asked for under its code |
| PoMerge.MergeCovers | api/modules/po/merge.go:21-53 | every code asked for is there |
| PoMerge.MergeKeepsOrder | api/modules/po/merge.go:51-52 | in the order in which codes are first asked for |
| PoMerge.MergePrices | api/modules/po/merge.go:33-36 | at the first rate other than zero given for the code |
| PoMerge.MergeTexts | api/modules/po/merge.go:38-49 | name, warehouse, unit and batch are each the first one given for the code |
| PoMerge.MergeAmounts | api/modules/po/merge.go:26-37 | a code asked for once keeps its amount, worked out if there was none; one asked for more often is worth its whole quantity at its rate |
| PoMerge.MergeIdempotent | api/modules/po/merge.go:18-55 | merging a second time changes nothing |
| PoFold.FoldExpectedParts | api/modules/grn/po_match.go:142-179 | the three loops fold as specified |
| PoFold.FoldDistinct | api/modules/grn/po_match.go:147-174 | no code appears twice in the result |
| PoFold.FoldIs | api/modules/grn/po_match.go:168-179 | after the rows of the order come the scanned parts that are not on it, each code once and in scanning order |
| PoFold.RowsInOrder | api/modules/grn/po_match.go:147-166 | the order's rows stand in the order in which their codes are first asked for |
| PoFold.FoldExpectedIff | api/modules/grn/po_match.go:149-166 | each ordered code gets the scanned quantity once, and the order's whole quantity if and only if its first line is written without blanks or the others add nothing |
| PoFold.BlankLosesQuantity | api/modules/grn/po_match.go:149-166 | three of five units ordered are lost to a blank |
| PoFold.FoldOfMerged | api/modules/grn/po_match.go:140-179 | for trimmed codes folding raw lines and folding merged ones agree on every code |
| PartRollup.RollUp | api/modules/grn/part_rollup.go:46-82 | grouping and totalling loops compute the roll-up |
| PartRollup.ReconcilePart | api/modules/grn/part_rollup.go:60-79 | one pass over a part's lines gives its totals, verdict and boxes |
| PartRollup.RollupPartitions | api/modules/grn/part_rollup.go:47-58 | every line with a part stands under that part and no other, once; parts stand in the order in which they are first seen, and a part's boxes are those of its lines in input order |
| PartRollup.RollupConserves | api/modules/grn/part_rollup.go:60-79 | the parts' totals add up to the lines' totals |
| PartRollup.PartIs | api/modules/grn/part_rollup.go:28-42 | a part's totals are those of its lines and it is in order exactly when something is expected and exactly that was scanned; each box is in order, over or short by its own line |
| PartRollup.BoxIs | api/modules/grn/part_rollup.go:60-75 | a box shows its line's quantities under its number, or as consolidated goods without one |
| PartRollup.BoxesFineThenPartFine | api/modules/grn/part_rollup.go:28-42 | all boxes in order implies the part is |
| PartRollup.PartFineBoxesNot | api/modules/grn/part_rollup.go:76-79 | a part in order none of whose boxes is |
| MigrationParser.ParseDump | scripts/gen_migrations.py:17-101 | the loop over lines reads what the specification reads |
| MigrationParser.ParsePrint | scripts/gen_migrations.py:80-101 | for any mixture of well-formed statements and noise the parser returns exactly the statements, in order, with kind and table |
| MigrationParser.LinesAre | scripts/gen_migrations.py:30-79 | which line starts a statement of which kind |
| MigrationParser.ClosesIff | scripts/gen_migrations.py:80-98 | a line closes a block exactly when a semicolon is the last thing on it that is not blank |
| MigrationParser.BlockIsCut | scripts/gen_migrations.py:95-99 | a block ends at its first line that ends in a semicolon, and what follows is read as if the dump began there |
| MigrationParser.OpenBlockIsKept | scripts/gen_migrations.py:95-101 | a block nothing closes is kept whole |
| MigrationOrder.GroupsPartition | scripts/gen_migrations.py:144-178 | the three files together hold every statement exactly as often as the dump |
| MigrationOrder.SortedIsStable | scripts/gen_migrations.py:182-205 | each file is a ranked permutation of its group that keeps dump order within a rank |
| MigrationOrder.StableSortIsUnique | scripts/gen_migrations.py:205 | any stable sort writes the same file |
| MigrationOrder.KeysFirst | scripts/gen_migrations.py:190-193 | every primary or unique key precedes every other constraint of its file |
| MigrationOrder.FileOrder | scripts/gen_migrations.py:182-205 | sequences, tables, defaults, keys, indexes, other constraints and owners follow each other in every file |
| MigrationOrder.FileOf | scripts/gen_migrations.py:144-165 | a statement goes with the core schema or with operations if its table starts like one of theirs, core first, and with the extras if not |
| MigrationPatterns.SequenceTravels | scripts/gen_migrations.py:36-40 | the sequence of a table's identity column is filed under that table |
| MigrationPatterns.TableTravels | scripts/gen_migrations.py:41-45 | the making of a public table is filed under it |
| MigrationPatterns.ChangeTravels | scripts/gen_migrations.py:46-63 | a change to a public table, whatever is changed, is filed under that table |
| MigrationPatterns.SearchIs | scripts/gen_migrations.py:36-73 | a search finds what the pattern reads at the first place it matches, and nothing only when it matches nowhere |
| MigrationRerun.GuardsProtect | scripts/gen_migrations.py:104-141 | every guard the patterns put on protects something that is made, or a default by looking at that default |
| MigrationRerun.GuardedIff | scripts/gen_migrations.py:104-111 | a table or sequence is guarded exactly when a public name follows its keywords, an owner never |
| MigrationRerun.DefaultGuard | scripts/gen_migrations.py:112-126 | the default of a column of a public table is set only where that column has none |
| MigrationRerun.RunTwiceIff | scripts/gen_migrations.py:104-141 | after a completed run, a second completes and leaves the schema as it is if and only if every statement is a setting or has a guard that finds what it looks for |
| MigrationRerun.GeneratedTwiceIff | scripts/gen_migrations.py:173-211 | for a generated file: if and only if every statement of the dump that went into it is a setting, or has a guard that looks for what it guards, for something there before, or for something another of those statements makes |
| MigrationRerun.GeneratedFileBuilds | scripts/gen_migrations.py:180-205 | from any schema, and twice, such a file runs to its end when what its statements need is there or made by a statement of the same file: the ranks put it in time |
| MigrationRerun.NamedConstraintReruns | scripts/gen_migrations.py:127-138 | a constraint named by a word is guarded by that very name |
| MigrationRerun.TableIsMade | scripts/gen_migrations.py:106-107 | a table with a public name is made only if absent, and what needs it finds it |
| MigrationRerun.ReplicaIdentityRepeats | scripts/gen_migrations.py:139 | a replica identity is written without a guard and may be run again |
| MigrationRerun.QuotedNameStopsRerun | scripts/gen_migrations.py:128-139 | wherever a constraint with a quoted name can be made, the second run of it is refused |
| MigrationRerun.ConstraintGuard | scripts/gen_migrations.py:127-138 | a constraint is guarded by the word its name starts with, and by its own name if that is a word |
| MigrationRerun.DollarNameStopsRerun | scripts/gen_migrations.py:127-138 | a constraint named a$b is guarded as a: without an a it is made and refused the second time, with one it is never made |
| MigrationRerun.UnnamedIndexStops | scripts/gen_migrations.py:110-111 | a file with an index without a name never runs to its end |
| MigrationOrder.Generate | scripts/gen_migrations.py:173-205 | grouping loop and sort give the three files |

## Left out

- HTTP handling, permissions beyond the override flag, logins, documents, spreadsheets, notifications, front end and analytics: no stock moves there.
- Floating-point and numeric(18,6) rounding: quantities are exact reals.
- Batches in the outbound engine: one batch per item, because shipping groups a box by item and takes the largest batch number. Batches are modelled in transfers.
- Pick lists without a fulfilment type, cancellation (`ReleasePickListReservations`) and the idle reaper: the model only opens typed lists and never cancels one.
- Trimming and case folding of item codes and bins in scans and in `AdjustLocationQtyTx`: codes are compared as they stand there. Folding, merging, part reconciliation and box numbers do trim, for ASCII text.
- The advisory lock's error, which the code discards, and its key width: the lock is taken to be granted as asked. The row lock on wave order lines is not modelled.
- `reverseItem` reads the box total without grouping by the box; the model reads the intended sum. The reversal log has no column for a box that had left; the model derives it when the reversal is made.
- Box weights, scan logs, occupied flags, progress of sales orders, invoices and the backorder documents around the lines.
- Leftover lines are disposed of in line order, not by item code; no property depends on it.
- GrnClose.GrnSession.FinalizeGrn: takes the number of open exceptions as an input, and one state for those between verification and putaway.
- GrnClose.GrnSession.CloseSession: leaves out variance reporting, running ledger balances, item weights and backorder alerts, and is atomic although the handler is not one transaction.
- RF steps that scan items or routes, the desk workflow, and steps that set a session's state freely: the wizard's three steps are modelled, with a box's line counts as an input to its completion.
- RfReceiving.RfSession.MarkUnsignedMissing: marks cartons in list order, not by carton number.
- The warehouse column of a balance row, which a transfer fills with its own warehouse: a row's warehouse is that of its location.
- Creating locations on demand: every warehouse has its transit and incoming location from the start.
- MigrationParser.ParseDump: takes the reading of a line's table as an input; `MigrationPatterns.TableIn` is the generator's own.
- The generator's guards are matched at the head of a statement only, and words are ASCII. The guarded text is not written out as SQL: `MigrationRerun.CommandOf` says what it does, on a schema that maps objects to definitions.
- What PostgreSQL does is reduced to what is made, set or refused: names are compared as written (no folding of capitals, no length limit), tables, sequences and indexes have names of their own kind, a foreign key needs the table it refers to but not its key, and a change whose first words are not known to be refused or to add when repeated is a setting.
