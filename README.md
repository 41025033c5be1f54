# AdhE assay protocol: the transfer engine, verified

This project models the pipetting bookkeeping inside `run()` of the Opentrons
protocol `AdhE_assay_protocol.py`, and proves properties of the model:

- **Well addressing** (`WellNames`, wells.dfy). A well name such as "B15"
  converts to zero-based (row, column) indices and back. A well can be shifted
  by a number of rows and columns, and has a column-major well id. Python's
  `int()` and `str()` on the column part are modelled digit by digit, for a
  column written as an optional sign followed by ASCII digits.
- **Dispense geometry** (`Geometry`, geometry.dfy):
  - the dispense height that tracks the liquid surface in the 384-well assay
    plate;
  - the lateral offset that puts a tapered tip against a well wall;
  - the mapping of an offset direction to an (x, y) displacement.
- **The volume ledger** (`Ledger`, ledger.dfy). `all_volumes` is a class
  holding a plate → well → µL map. `reset_well_volumes` empties every well.
  `adjust_well_volume` debits the source well(s) and credits the
  destination well(s), with the 8-channel fan-out taken from the plate's
  row count (1, 8 or 16 rows) and its start-row checks. The fixed trash is
  a sink that is never credited.
- **The pipette** (`Hardware`, hardware.dfy). The pipette is a class that logs
  every hardware action it is asked to perform. Its tip state (whether a tip
  is mounted, and `current_volume`) is the state that log leads to.
- **`offset_dispense`** (`Transfer`, transfer.dfy). This covers the checks,
  the offset distance, the direction and the sequence of moves around the
  dispense.
- **Batching for the "distribute" strategy** (`Transfer`, transfer.dfy):
  - the capacity count;
  - the even split;
  - the batches popped from the end of the working list.
- **`custom_transfer`** (`TransferRun`, transfer_run.dfy). A specification
  function gives the whole run: the actions performed, the tip left behind,
  the ledger afterwards and the error that stops the run, if any. The
  imperative routine is proved to make exactly that run.
- **`serial_dilution`** (`Dilution`, dilution.dfy). Same structure: a
  specification of the run and the routine that makes it. Telescoping
  lemmas give the net effect on the ledger.
- **The buffer step's reservoir rotation** (`Rotation`, rotation.dfy). Buffer
  is added to a dilution series, and the routine moves to the next reservoir
  well once the current one has served enough aspirates.

Volumes (µL) and lengths (mm) are exact reals. Every error the protocol
raises ends its run. The model returns the error as a value instead
(`Outcomes.Error`), and leaves the state as the source leaves it at that
point.

## Model

| member | source | states |
|---|---|---|
| WellNames.IndicesFromWellName | AdhE_assay_protocol.py:138-146 | succeeds exactly when the name is non-empty and its tail parses as an integer; the row is the code point of the upper-cased first character minus 65, the column the parsed tail minus 1 |
| WellNames.WellNameFromIndices | AdhE_assay_protocol.py:159-165 | succeeds exactly when row + 65 is a code point a character can hold, InvalidRowIndex otherwise; the name starts with chr(row + 65) and int() of the rest is col + 1 |
| WellNames.ParseIntToString | AdhE_assay_protocol.py:138-165 | `int(str(i)) == i` for every integer, the round trip the two helpers rely on |
| WellNames.WellNameRoundTrip | AdhE_assay_protocol.py:138-165 | for every row whose letter chr() produces and upper() leaves alone (rows 0..25 among them) and any column, parsing the built name gives back (row, col) |
| WellNames.IndicesThenName | AdhE_assay_protocol.py:138-165 | rebuilding a parsed name gives the name with its row letter upper-cased and its column written canonically |
| WellNames.IndicesIgnoreCase | AdhE_assay_protocol.py:144 | a lower-case row letter gives the same indices as its upper-case form |
| WellNames.WellNameAgrees | AdhE_assay_protocol.py:159-165 | the plate well names used by the ledger are the names well_name_from_indices builds |
| WellNames.OffsetWell | AdhE_assay_protocol.py:167-172 | fails with InvalidWellName when the name does not parse, and with InvalidRowIndex exactly when the moved row has no character; otherwise the new name parses back to the indices moved by exactly (row offset, column offset), unless its row letter is a lower-case one |
| WellNames.WellIdFromName | AdhE_assay_protocol.py:148-157 | the id exists exactly when the name parses (InvalidWellName otherwise); for a row of a 16-row plate it decodes back: id / 16 is the column and id % 16 the row |
| WellNames.WellIdOfName | AdhE_assay_protocol.py:148-157 | the well id is col * 16 + row whatever rows_in_plate is, and decodes back to (row, col) for a 16-row plate |
| Labware.HasSubstringIff | AdhE_assay_protocol.py:649 | the trash test `'Fixed Trash' in label` holds exactly when "Fixed Trash" occurs in the label at some offset |
| Hardware.Pipette.constructor | AdhE_assay_protocol.py:718-719 | a loaded pipette has its model's volume range and channel count, no tip, nothing in it and an empty log |
| Hardware.Pipette.Perform | AdhE_assay_protocol.py:459-468 | each action is logged and has_tip and current_volume follow it: a pick-up mounts an empty tip, an aspirate adds, a dispense removes, a blow-out empties, a drop unmounts |
| Hardware.Pipette.PerformAll | AdhE_assay_protocol.py:459-468 | a trace is logged in order and the tip state is the one it leads to |
| Geometry.DispenseHeight384 | AdhE_assay_protocol.py:174-195 | the height is at least 1 mm and at least the liquid-surface height + 0.8 mm, and is one of the two |
| Geometry.DispenseHeightEncodesVolume | AdhE_assay_protocol.py:180-195 | above the 1 mm floor the height is the surface height, so it determines the well's total volume (11.43 mm per 112 µL) |
| Geometry.DispenseHeightMonotone | AdhE_assay_protocol.py:188-195 | more liquid never lowers the dispense height |
| Geometry.WellEdgeOffset | AdhE_assay_protocol.py:197-234 | fails exactly when the height is at or above the well top (checked first) or the pipette has no tip profile; otherwise offset + half the tip width at the well top = half the well width + 0.2 mm |
| Geometry.EdgeOffsetMonotone | AdhE_assay_protocol.py:209-233 | for both tip profiles, a greater height above the bottom gives a greater offset |
| Geometry.DirectionOffset | AdhE_assay_protocol.py:580-596 | succeeds exactly for center, right, left, top and bottom; any other direction is InvalidOffsetDirection; right gives (d, 0) and top gives (0, d) |
| Geometry.DirectionOffsetGeometry | AdhE_assay_protocol.py:580-594 | center does not move the tip; every other direction moves it the full distance along one axis; left/right and top/bottom are opposite |
| Geometry.DirectionOffsetInjective | AdhE_assay_protocol.py:580-594 | for a non-zero distance the displacement determines the direction |
| Ledger.ZeroLedger | AdhE_assay_protocol.py:104-110 | the reset ledger tracks exactly the registered plates, each with exactly its own wells, all at 0 |
| Ledger.ResetKeepsWells | AdhE_assay_protocol.py:104-110 | resetting a consistent ledger keeps every plate and every well name and empties every well |
| Ledger.VolumeLedger.constructor | AdhE_assay_protocol.py:730-737 | the ledger starts with every well of every registered plate empty |
| Ledger.VolumeLedger.Reset | AdhE_assay_protocol.py:95-110 | the loop over plates leaves exactly the reset ledger |
| Ledger.ChannelWells | AdhE_assay_protocol.py:659-691 | one channel addresses only its own well; any other fan-out is one well per channel or one well taking every channel's load; no fan-out exists exactly when several channels meet a plate without 1, 8 or 16 rows |
| Ledger.ChannelWellsInPlate | AdhE_assay_protocol.py:664-691 | every well of a fan-out from an allowed start row is a well of the same plate |
| Ledger.FanOutInPlate | AdhE_assay_protocol.py:668-677 | the eight wells an 8-channel pipette covers on an 8- or 16-row plate, in the column of its start well, all belong to that plate |
| Ledger.AdjustError | AdhE_assay_protocol.py:636-694 | the checks that run before any change pass exactly when plates are registered, names non-empty, the channel count is 1 or 8, start rows are allowed and every fan-out well is tracked (destination checks skipped for the trash) |
| Ledger.AdjustSpec | AdhE_assay_protocol.py:623-705 | an early error changes nothing; the only error after a change is a destination without a fan-out, reported after the source debit; every plate and well name is kept |
| Ledger.AdjustSpecSteps | AdhE_assay_protocol.py:696-705 | after the checks the source fan-out is debited, then, unless the destination is the trash, the destination fan-out is credited |
| Ledger.AdjustKeepsConsistent | AdhE_assay_protocol.py:696-705 | an adjustment never adds or drops a plate or a well |
| Ledger.AdjustPlateWells | AdhE_assay_protocol.py:643-705 | with a consistent ledger and wells of their plates, no well is reported missing and no name is empty |
| Ledger.SingleChannelWeight | AdhE_assay_protocol.py:659-662 | a single channel moves liquid at its own well only |
| Ledger.EightChannelWeight | AdhE_assay_protocol.py:664-691 | 8 channels: 1-row plate: the one well takes 8 loads; 8-row plate from row A: each well of the column takes one; 16-row plate from A or B: every other row from the start row takes one; no other well is touched |
| Ledger.EightChannelWeightOneRow | AdhE_assay_protocol.py:664-691 | on a 1-row plate the well takes all eight loads |
| Ledger.EightChannelWeightEightRows | AdhE_assay_protocol.py:668-685 | on an 8-row plate each well of the column takes one load |
| Ledger.EightChannelWeightSixteenRows | AdhE_assay_protocol.py:672-691 | on a 16-row plate the eight every-other-row wells from the start row take one load each |
| Ledger.AdjustAt | AdhE_assay_protocol.py:696-705 | every tracked well loses volume × its source weight and gains volume × its destination weight unless the destination is the trash |
| Ledger.AdjustLateFailure | AdhE_assay_protocol.py:676-705 | the one error raised after a change is an 8-channel transfer into a non-trash plate without 1, 8 or 16 rows |
| Ledger.AdjustPartialDebit | AdhE_assay_protocol.py:696-705 | after that error the source debit stays and nothing is credited |
| Ledger.AdjustSingleChannel | AdhE_assay_protocol.py:643-705 | a 1-channel adjustment succeeds exactly when both wells are tracked (or the destination is the trash); the source loses v, the destination gains v unless it is the trash, and no other well changes |
| Ledger.AdjustChannelCount | AdhE_assay_protocol.py:658-694 | with plates and names found, the adjustment fails with WrongChannelCount exactly when the count is not 1 or 8, and changes nothing then |
| Ledger.AdjustAlignment | AdhE_assay_protocol.py:664-691 | an 8-channel adjustment fails for alignment exactly when the source, or the non-trash destination, starts at a row its plate does not allow, and changes nothing then |
| Ledger.AdjustConserves | AdhE_assay_protocol.py:696-705 | a successful adjustment keeps the ledger's total, except that what goes to the trash (volume × channels) leaves it |
| Ledger.TotalMove | AdhE_assay_protocol.py:696-705 | a debit or credit loop changes the total by the volume once per channel |
| Ledger.VolumeLedger.ApplyMove | AdhE_assay_protocol.py:697-705 | one `-=`/`+=` loop over a fan-out makes exactly the move of that fan-out |
| Ledger.VolumeLedger.Adjust | AdhE_assay_protocol.py:623-705 | the ledger and the outcome are those AdjustSpec gives for the wells the points belong to |
| Transfer.DispenseDistance | AdhE_assay_protocol.py:573-577 | a given, non-zero custom distance wins; otherwise the edge offset at the dispense height |
| Transfer.DispensePlan | AdhE_assay_protocol.py:570-596 | succeeds exactly when the target is a well, the distance is computable and the direction valid; each error is the first failing check, before any action |
| Transfer.DispenseAtOffset | AdhE_assay_protocol.py:606-609 | the dispense happens right after the slide to the side, at the displacement the direction gives |
| Transfer.DispenseEffect | AdhE_assay_protocol.py:598-621 | an offset dispense keeps the tip mounted and leaves it holding the volume less, or nothing after a blow-out |
| Transfer.PlanEffect | AdhE_assay_protocol.py:598-621 | the same for a planned dispense, whatever the offset |
| Transfer.OffsetDispense | AdhE_assay_protocol.py:553-621 | on an error nothing is done; otherwise exactly the planned actions are performed and the tip follows them |
| Transfer.DispenseAt | AdhE_assay_protocol.py:598-621 | performs the inspection, main dispense, blow-out and touch actions in that order |
| Transfer.InspectTips | AdhE_assay_protocol.py:601-604 | when asked, lifts 10 mm above the well top and waits 3 s |
| Transfer.DispenseAtSide | AdhE_assay_protocol.py:606-609 | centre, side, dispense at the rate, back to the centre |
| Transfer.BlowOutAtSide | AdhE_assay_protocol.py:611-618 | when asked, centre at the blow-out height, side at the dispense height, blow out, centre again |
| Transfer.TouchTipSlowly | AdhE_assay_protocol.py:620-621 | when asked, touches the tip at 20 mm/s |
| Transfer.MaxWellsPerAspirate | AdhE_assay_protocol.py:499-501 | the capacity count is the largest k with k·v ≤ 0.9·max, and is not negative for a non-negative max |
| Transfer.DistributeSize | AdhE_assay_protocol.py:499-510 | the batch size is at least 1 and its volume fits in 0.9·max; it fails exactly when no destination fits in one aspirate or an even split has no destinations; without an even split it is the capacity count, with one it is no larger, needs the same number of aspirates, and is the smallest such size: every smaller batch needs more aspirates, so it is ceil(n / ceil(n / size)) |
| Transfer.EvenSplitKeepsGroups | AdhE_assay_protocol.py:504-509 | the even split keeps the number of aspirates and never makes a batch larger |
| Transfer.EvenIsLeast | AdhE_assay_protocol.py:504-509 | ceil(n / ceil(n / size)) is the smallest batch size that keeps the number of aspirates: any smaller batch needs more aspirates than the capacity count does |
| Transfer.PopOneMore | AdhE_assay_protocol.py:516-519 | each further pop moves the last remaining destination to the end of the batch |
| Transfer.DistributeStalls | AdhE_assay_protocol.py:513-519 | with a batch size of 0 the pops take nothing and the working list never shrinks |
| Transfer.NoCapacityWitness | AdhE_assay_protocol.py:451-501 | 19 µL with a 20 µL pipette passes the range check yet gives a capacity count of 0 |
| Transfer.BatchesReverse | AdhE_assay_protocol.py:513-519 | the batches served one after another are the destination list reversed |
| Transfer.PopBatch | AdhE_assay_protocol.py:516-519 | pops min(k, len) destinations from the end of the list, the last one first, and leaves the front of the list |
| Transfer.Batches | AdhE_assay_protocol.py:513-519 | every batch has between 1 and size destinations, and only the last may have fewer |
| Transfer.BatchCount | AdhE_assay_protocol.py:513-519 | there are ceil(n / size) batches |
| Transfer.EighteenWellsEvenSplit | AdhE_assay_protocol.py:495-509 | 18 destinations of 20 µL with a 300 µL pipette: capacity 13, and the even split serves two batches of 9 |
| TransferRun.DispenseAndRecord | AdhE_assay_protocol.py:530-547 | offset dispense then adjust: keeps the tip mounted and, without blow-out, takes the volume out of the tip |
| TransferRun.SingleDrawEffect | AdhE_assay_protocol.py:478-479 | aspirate and touch add the volume to the tip |
| TransferRun.SingleStep | AdhE_assay_protocol.py:471-489 | one single transfer leaves the tip's volume as it was (no blow-out) and the tip mounted |
| TransferRun.SingleTransfers | AdhE_assay_protocol.py:470-489 | the single loop keeps the tip mounted and, without blow-outs, its volume |
| TransferRun.SingleTransfersStop | AdhE_assay_protocol.py:470-489 | once a destination fails, no later destination is served |
| TransferRun.BatchDraw | AdhE_assay_protocol.py:523-527 | the top-up leaves the tip holding n·v + 0.1·max, whatever it held |
| TransferRun.DispenseNext | AdhE_assay_protocol.py:530-547 | one more destination of a batch: the tip stays mounted and, without blow-out, loses v; a batch that has already failed is returned unchanged |
| TransferRun.DispenseAll | AdhE_assay_protocol.py:530-547 | the batch loop keeps the ledger's plates and the tip mounted, and never fails for the volume range |
| TransferRun.DispenseAllDrains | AdhE_assay_protocol.py:530-547 | a batch of n destinations served without blow-outs takes n·v out of the tip |
| TransferRun.DispenseAllStop | AdhE_assay_protocol.py:530-547 | once a batch destination fails, none after it is served |
| TransferRun.DistributeBatch | AdhE_assay_protocol.py:516-547 | a served batch leaves exactly the carryover 0.1·max in the tip |
| TransferRun.DistributeTransfers | AdhE_assay_protocol.py:513-547 | after at least one batch the tip holds exactly the carryover |
| TransferRun.DistributeTransfersStop | AdhE_assay_protocol.py:513-547 | once a batch fails, no later batch is served |
| TransferRun.DistributeTransfersSnoc | AdhE_assay_protocol.py:513-547 | serving one more batch continues the run of the batches before it |
| TransferRun.BatchesNext | AdhE_assay_protocol.py:513-519 | popping a batch moves it from the batches to come to the batches served |
| TransferRun.SourcePoint | AdhE_assay_protocol.py:454-456 | the aspirate point belongs to the source well |
| TransferRun.PreparationMountsTip | AdhE_assay_protocol.py:459-468 | after the preparation a tip is mounted |
| TransferRun.PrewetEffect | AdhE_assay_protocol.py:463-468 | prewetting keeps the tip mounted or not, and leaves its volume as it was, or empty after the blow-out |
| TransferRun.DistributeStrategy | AdhE_assay_protocol.py:496-547 | with no destinations and no even split nothing happens whatever the batch size; otherwise a batch-size error ends the transfer with no action and no volume change; the tip stays mounted |
| TransferRun.CustomTransferSpec | AdhE_assay_protocol.py:411-551 | a volume outside [min, max] fails with VolumeOutOfRange before any action; the ledger keeps its plates; a distribute without an even split and with no destinations completes, changes no well and drops the tip exactly when asked |
| TransferRun.TransferRangeCheck | AdhE_assay_protocol.py:451 | the transfer fails with VolumeOutOfRange exactly when the volume is out of range, and then changes nothing |
| TransferRun.TransferTip | AdhE_assay_protocol.py:459-551 | a completed transfer leaves a tip mounted exactly when it was not asked to drop it (an unknown strategy never drops it) |
| TransferRun.DistributeKeepsCarryover | AdhE_assay_protocol.py:521-547 | a completed distribute transfer that keeps its tip holds exactly the carryover |
| TransferRun.AdjustEachAppend | AdhE_assay_protocol.py:470-547 | adjusting for a + b is adjusting for a, then for b |
| TransferRun.SingleTransfersLedger | AdhE_assay_protocol.py:471-489 | a completed single loop records one adjustment per destination, in list order |
| TransferRun.DispenseAllLedger | AdhE_assay_protocol.py:530-547 | a completed batch records one adjustment per destination of the batch |
| TransferRun.DistributeTransfersLedger | AdhE_assay_protocol.py:513-547 | a completed distribute loop records one adjustment per destination, batch after batch |
| TransferRun.TransferLedger | AdhE_assay_protocol.py:470-551 | a completed transfer records exactly one adjustment of v per destination: list order for single, reverse order for distribute |
| TransferRun.AdjustEachConserves | AdhE_assay_protocol.py:470-547 | adjustments into tracked plates keep the ledger total |
| TransferRun.TransferConserves | AdhE_assay_protocol.py:470-551 | a completed transfer into tracked plates keeps the ledger total |
| TransferRun.DispenseAndRecordStep | AdhE_assay_protocol.py:530-547 | performs the dispense and the adjustment exactly as DispenseAndRecord specifies |
| TransferRun.SingleStepAt | AdhE_assay_protocol.py:471-489 | one iteration of the single loop, as SingleStep specifies |
| TransferRun.AspirateAndTouch | AdhE_assay_protocol.py:478-479 | aspirate at the source, then touch the tip |
| TransferRun.SingleTransfer | AdhE_assay_protocol.py:470-489 | the single loop makes exactly the run SingleTransfers specifies |
| TransferRun.DispenseBatch | AdhE_assay_protocol.py:530-547 | the inner batch loop makes exactly the run DispenseAll specifies |
| TransferRun.DistributeBatchStep | AdhE_assay_protocol.py:521-547 | one distribute iteration makes exactly the run DistributeBatch specifies |
| TransferRun.TopUp | AdhE_assay_protocol.py:523-527 | aspirates n·v + 0.1·max − current volume, then touches if asked |
| TransferRun.Distribute | AdhE_assay_protocol.py:513-547 | the while/pop loop makes exactly the run of serving Batches(dests, size) |
| TransferRun.PopDestinations | AdhE_assay_protocol.py:516-519 | the pops give exactly PopBatch: up to k destinations from the end, in pop order, and the rest |
| TransferRun.Prepare | AdhE_assay_protocol.py:459-468 | picks up a tip if none is mounted, then prewets if asked |
| TransferRun.PickUpIfNeeded | AdhE_assay_protocol.py:459-460 | logs a pick-up exactly when no tip was mounted |
| TransferRun.Prewet | AdhE_assay_protocol.py:463-468 | aspirate and dispense max at the source, blow out above it if asked, touch |
| TransferRun.BatchSize | AdhE_assay_protocol.py:499-510 | the reassigned max_wells_per_aspirate is the batch size DistributeSize specifies: between 1 and the capacity count, fitting in 0.9·max, and with an even split the smallest size that keeps the number of aspirates |
| TransferRun.DistributeStrategyAt | AdhE_assay_protocol.py:496-547 | the distribute branch (batch size, then the while loop) makes exactly the run DistributeStrategy specifies |
| TransferRun.CustomTransfer | AdhE_assay_protocol.py:411-551 | the routine makes exactly the run CustomTransferSpec specifies: ledger, tip, action log and outcome |
| Dilution.MixingKeepsTip | AdhE_assay_protocol.py:373-376 | n mix cycles give back everything they draw, so they leave the tip as they found it |
| Dilution.DilutionStep | AdhE_assay_protocol.py:384-403 | one serial transfer records in the ledger exactly the adjustment from one well to the next |
| Dilution.Serial | AdhE_assay_protocol.py:384-403 | the serial transfers keep every plate and well name and never fail with TooFewWells |
| Dilution.Discard | AdhE_assay_protocol.py:405-409 | the discard records the adjustment from the last well to the trash and, if it succeeds, leaves no tip |
| Dilution.SerialDilutionSpec | AdhE_assay_protocol.py:347-409 | fails with TooFewWells exactly when there are fewer than two wells; a completed dilution leaves no tip mounted |
| Dilution.SerialIsChain | AdhE_assay_protocol.py:384-403 | the serial transfers do to the ledger exactly what the chain of adjustments does |
| Dilution.ChainTelescopes | AdhE_assay_protocol.py:384-388 | after n transfers, well 0 has lost and well n gained the volume (by channel weight); the wells in between are back where they started |
| Dilution.ChainNext | AdhE_assay_protocol.py:384-388 | a chain of m + 1 transfers is the chain of m, unchanged after an error, otherwise followed by the adjustment from well m to well m + 1 |
| Dilution.SerialLedgerNext | AdhE_assay_protocol.py:384-388 | after m + 1 serial transfers the ledger is that of m transfers, unchanged after an error, otherwise adjusted from well m to well m + 1 |
| Dilution.TelescopeStep | AdhE_assay_protocol.py:388 | one more transfer passes on what the previous well had gained |
| Dilution.DilutionNetEffect | AdhE_assay_protocol.py:384-409 | a completed dilution: the first well loses the volume (by channel weight), every other tracked well is unchanged |
| Dilution.DilutionSingleChannel | AdhE_assay_protocol.py:384-409 | with one channel: −v at the first well and 0 everywhere else |
| Dilution.FirstStepPasses | AdhE_assay_protocol.py:388 | a completed first transfer means the first well is a tracked one |
| Dilution.DilutionIsLedger | AdhE_assay_protocol.py:347-409 | the ledger and outcome of a dilution are those of the chain plus the discard alone |
| Dilution.DilutionIgnoresMixing | AdhE_assay_protocol.py:370-403 | the recorded volumes and the outcome do not depend on the mix volume or any mixing, blow-out or tip option |
| Dilution.SerialStop | AdhE_assay_protocol.py:384-403 | once a transfer fails, later ones change nothing |
| Dilution.SerialNext | AdhE_assay_protocol.py:384-403 | m + 1 transfers are m transfers followed by the one from well m to well m + 1 |
| Dilution.MixAt | AdhE_assay_protocol.py:370-395 | logs exactly n mix cycles |
| Dilution.FinishAt | AdhE_assay_protocol.py:378-399 | blow-out if asked, then a slow touch |
| Dilution.MixFirst | AdhE_assay_protocol.py:370-381 | logs exactly the mixing before the transfers |
| Dilution.AfterCarryAt | AdhE_assay_protocol.py:390-403 | mixing, finishing and, if asked, a fresh tip |
| Dilution.CarryAt | AdhE_assay_protocol.py:386-387 | logs exactly the aspirate from one well and the dispense into the next |
| Dilution.DilutionStepAt | AdhE_assay_protocol.py:384-403 | one iteration makes exactly the run DilutionStep specifies |
| Dilution.DiscardAt | AdhE_assay_protocol.py:405-409 | makes exactly the run Discard specifies |
| Dilution.SerialTransfers | AdhE_assay_protocol.py:384-403 | the for-loop makes exactly the run Serial specifies |
| Dilution.SerialDilution | AdhE_assay_protocol.py:347-409 | the routine makes exactly the run SerialDilutionSpec specifies |
| Rotation.ThresholdIsTest | AdhE_assay_protocol.py:850 | the switch test on whole counts is a comparison with an integer threshold |
| Rotation.BufferPlan | AdhE_assay_protocol.py:843-852 | a successful plan names one reservoir well per destination |
| Rotation.ServedNext | AdhE_assay_protocol.py:849-863 | the counter runs 1..c, wraps to 1 exactly when it had reached c, and the well advances exactly then |
| Rotation.SourcesInOrder | AdhE_assay_protocol.py:849-852 | reservoir wells are used in order, none skipped |
| Rotation.SourceServesThreshold | AdhE_assay_protocol.py:849-852 | with a positive threshold c every reservoir well serves exactly c consecutive destinations |
| Rotation.CounterStep | AdhE_assay_protocol.py:850-852 | the switch happens exactly when the counter has reached the threshold |
| Rotation.BufferSources | AdhE_assay_protocol.py:843-863 | the counter loop yields exactly BufferPlan: the wells per destination, or SourcesExhausted when next() runs out |
| Rotation.ExhaustedAtLast | AdhE_assay_protocol.py:844-851 | the iterator runs out exactly when the last destination's well is missing |
| Rotation.MissingSourceStays | AdhE_assay_protocol.py:849-852 | once a destination's well is missing, so is the last one's |
| Rotation.AssayBufferPlan | AdhE_assay_protocol.py:839-852 | the assay's buffer step (300 µL, 8 wells, 10000 µL reservoir wells) draws wells 1-4 from the first reservoir well and 5-7 from the second |

## Left out

- Hardware: motion, speeds, the robot's own checks of volumes, and clamping. Pipette actions are abstract events in the pipette's log. Only the tip state (mounted, volume) follows from them. A `Delay` (the protocol's `protocol.delay`) is recorded in the pipette's log.
- Labware objects: well depth and width come from a table of well shapes. Plate layouts are row and column counts. The fixed trash is the well "A1" of a plate labelled "Opentrons Fixed Trash on 12" (the label the deck gives it), and a plate counts as trash when its label contains "Fixed Trash".
- Floating point: volumes and lengths are exact reals, so IEEE rounding is not modelled. `Times(n, v)` stands for the source's `v * n`.
- Logging, warnings (the "more than 100 µL" warning of the dispense height), the Excel processing, `display_plate_status` and the rest of `run()`.
- Ledger.AdjustError: a well missing from the ledger is reported before any change. The source debits the source well(s) first (line 699) and raises KeyError at the first missing well (line 699 or 705). An 8-channel loop can stop part-way, so the source keeps a partial debit where the model changes nothing. With a consistent ledger and wells taken from their plates no well is missing, so the case cannot arise (Ledger.AdjustPlateWells).
- Ledger.AdjustError: when the source column is missing and the destination's start row is also wrong, the model reports the alignment error first. The source reports the missing column first. Both are raised before the debit and change nothing.
- Ledger.AdjustError: the source's assertion messages for a 16-row plate name an undefined variable. They are modelled as the alignment error they report.
- WellNames.IndicesFromWellName: int() of the column text is modelled for an optional sign and ASCII digits only. Python also accepts surrounding whitespace, underscores between digits and non-ASCII decimal digits; the model refuses such names with InvalidWellName.
- WellNames.IndicesFromWellName: upper() is modelled on the ASCII letters only. Other letters keep their case, and a letter whose upper case is two characters ('ß' gives 'SS', on which ord() raises TypeError) is not modelled.
- WellNames.WellNameFromIndices: chr() also accepts the surrogate codes 0xD800 to 0xDFFF, which a Dafny character cannot hold. The model refuses them with InvalidRowIndex. Rows 0..25 (the letters A to Z) are not affected.
- WellNames.OffsetWell: inherits the two restrictions above.
- WellNames.WellIdFromName: inherits the restrictions of IndicesFromWellName.
- Transfer.DistributeSize: an even split of an empty destination list raises ZeroDivisionError in the source. It is modelled as the error EmptyEvenSplit.
- TransferRun.CustomTransferSpec: when not even one destination fits in an aspirate (capacity count 0) and there are destinations, the model fails with NoDistributeCapacity. The source loops for ever without an even split, and divides by zero with one (see Findings). With no destinations and no even split the loop never runs, and the model completes as the source does.
- TransferRun.CustomTransferSpec: the destination blow-out height is accepted but never passed to offset_dispense (as written). Every blow-out uses offset_dispense's default of 8 mm.
- TransferRun.CustomTransferSpec: the spec states the range check and the ledger keys. The effect of a completed run is stated by TransferRun.TransferLedger, TransferRun.TransferTip, TransferRun.TransferConserves and TransferRun.DistributeKeepsCarryover.
- Dilution.SerialDilutionSpec: with fewer than two wells the source ends with an unbound loop variable at the discard, which is modelled as TooFewWells. The tip pick-up and the mixing before the loop still happen.
- Dilution.DiscardAt: the discard's aspirate uses the default rate 1.0, as written.
- Rotation.BufferSources: the model covers only the choice of reservoir well per destination. Each destination's custom_transfer call is modelled by TransferRun.CustomTransfer and is not repeated here.

## Findings

| source | as written | input that shows it | evidently intended | confidence | as-written member | corrected member |
|---|---|---|---|---|---|---|
| AdhE_assay_protocol.py:501-519 | the distribute batch size `int(0.9 * max / v)` is 0 whenever v > 0.9 · max, though the range check at line 451 accepts any v ≤ max. Without an even split, and with destinations left, the while loop pops nothing and never ends; with one, `ceil(n / 0)` divides by zero | a p20 pipette (max 20 µL) distributing 19 µL | refuse a transfer that no aspirate can serve, so every batch serves at least one destination | not executed | Transfer.DistributeStalls, Transfer.NoCapacityWitness | Transfer.DistributeSize |
