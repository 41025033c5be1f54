/** custom_transfer as a whole: the run it makes (the actions it asks of the
    pipette, the tip it leaves, the ledger afterwards and the error that
    stops it, if any) as a specification, and the routine itself, proved to
    make exactly that run. */
module TransferRun {
  import opened Outcomes
  import opened Labware
  import opened Geometry
  import opened Ledger
  import opened Hardware
  import opened Transfer

  /** What a stretch of a transfer leaves behind: the ledger, the tip, the
      actions performed and whether an error stopped it. */
  datatype Run = Run(vols: Volumes, tip: TipState, actions: seq<Action>, outcome: Outcome)

  /** A run continued by another that starts where the first ended. */
  function Then(first: Run, next: Run): Run
  {
    Run(next.vols, next.tip, first.actions + next.actions, next.outcome)
  }

  /** What a transfer works with besides the volumes and the tip: the
      registered plates, the pipette, and the shape of every well. */
  datatype Rig = Rig(layouts: map<string, Plate>, pipette: PipetteInfo, shapeOf: WellRef -> WellShape)

  /** The keyword arguments of custom_transfer. The destination blow-out
      height is accepted but, as written, never passed on: every dispense
      blows out at offset_dispense's default height. */
  datatype TransferOptions = TransferOptions(
    sourceBlowoutHeight: real,
    destBlowoutHeight: real,
    dispenseHeight: real,
    direction: string,
    prewetTip: bool,
    dropTip: bool,
    doBlowout: bool,
    doTouchTip: bool,
    transferType: string,
    dispenseRate: real,
    inspectTips: bool,
    evenSplit: bool)

  /** offset_dispense's default blow-out height above the well bottom, in mm. */
  const DefaultDestBlowoutHeight: real := 8.0

  // ---------------------------------------------------------------------
  // One destination

  /** offset_dispense into one destination, then adjust_well_volume for it. */
  function DispenseAndRecord(rig: Rig, vols: Volumes, tip: TipState, volume: real,
                             source: WellRef, dest: Place, o: DispenseOptions): (r: Run)
    requires Registered(rig.layouts, vols)
    ensures Registered(rig.layouts, r.vols)
    ensures r.tip.hasTip == tip.hasTip
    ensures r.outcome.Pass? && !o.doBlowout ==> r.tip.volume == tip.volume - volume
    ensures r.outcome != Fail(VolumeOutOfRange)
  {
    var plan := DispensePlan(rig.pipette.name, rig.shapeOf(dest.well), dest, volume, o);
    if plan.Err? then Run(vols, tip, [], Fail(plan.error))
    else
      PlanEffect(rig.pipette.name, rig.shapeOf(dest.well), dest, volume, o, tip);
      var adjusted := AdjustSpec(rig.layouts, vols, volume, source, dest.well, rig.pipette.channels);
      Run(adjusted.0, Replay(tip, plan.value), plan.value, adjusted.1)
  }

  /** The draw of a single transfer: aspirate the volume, touch the tip. */
  function SingleDraw(volume: real, source: Place): seq<Action>
  {
    [Aspirate(volume, source, 1.0), TouchTip(DefaultTouchSpeed)]
  }

  lemma SingleDrawEffect(s: TipState, volume: real, source: Place)
    ensures Replay(s, SingleDraw(volume, source)) == TipState(s.hasTip, s.volume + volume)
  {
    ReplayAppend(s, [Aspirate(volume, source, 1.0)], [TouchTip(DefaultTouchSpeed)]);
    ReplaySingle(s, Aspirate(volume, source, 1.0));
    ReplaySingle(Step(s, Aspirate(volume, source, 1.0)), TouchTip(DefaultTouchSpeed));
    assert SingleDraw(volume, source) == [Aspirate(volume, source, 1.0)] + [TouchTip(DefaultTouchSpeed)];
  }

  /** One iteration of the "single" loop: draw, dispense, record. */
  function SingleStep(rig: Rig, vols: Volumes, tip: TipState, volume: real,
                      source: Place, dest: Place, o: DispenseOptions): (r: Run)
    requires Registered(rig.layouts, vols)
    ensures Registered(rig.layouts, r.vols)
    ensures r.tip.hasTip == tip.hasTip
    ensures r.outcome.Pass? && !o.doBlowout ==> r.tip.volume == tip.volume
    ensures r.outcome != Fail(VolumeOutOfRange)
  {
    var draw := SingleDraw(volume, source);
    SingleDrawEffect(tip, volume, source);
    var drawn := Replay(tip, draw);
    Then(Run(vols, drawn, draw, Pass), DispenseAndRecord(rig, vols, drawn, volume, source.well, dest, o))
  }

  // ---------------------------------------------------------------------
  // The "single" strategy

  /** The "single" loop over the destinations, stopping at the first error. */
  function SingleTransfers(rig: Rig, vols: Volumes, tip: TipState, volume: real,
                           source: Place, dests: seq<Place>, o: DispenseOptions): (r: Run)
    requires Registered(rig.layouts, vols)
    ensures Registered(rig.layouts, r.vols)
    ensures r.tip.hasTip == tip.hasTip
    ensures r.outcome.Pass? && !o.doBlowout ==> r.tip.volume == tip.volume
    ensures r.outcome != Fail(VolumeOutOfRange)
    decreases |dests|
  {
    if dests == [] then Run(vols, tip, [], Pass)
    else
      var done := SingleTransfers(rig, vols, tip, volume, source, dests[..|dests| - 1], o);
      if done.outcome.Fail? then done
      else Then(done, SingleStep(rig, done.vols, done.tip, volume, source, dests[|dests| - 1], o))
  }

  /** Once a prefix of the destinations has failed, the rest are never served. */
  lemma {:induction false} SingleTransfersStop(rig: Rig, vols: Volumes, tip: TipState, volume: real,
                                               source: Place, dests: seq<Place>, o: DispenseOptions, k: nat)
    requires Registered(rig.layouts, vols)
    requires k <= |dests|
    requires SingleTransfers(rig, vols, tip, volume, source, dests[..k], o).outcome.Fail?
    ensures SingleTransfers(rig, vols, tip, volume, source, dests, o)
         == SingleTransfers(rig, vols, tip, volume, source, dests[..k], o)
    decreases |dests|
  {
    if k < |dests| {
      var init := dests[..|dests| - 1];
      assert init[..k] == dests[..k];
      SingleTransfersStop(rig, vols, tip, volume, source, init, o, k);
    } else {
      assert dests[..k] == dests;
    }
  }

  // ---------------------------------------------------------------------
  // The "distribute" strategy

  /** The draw of one batch: aspirate what tops the tip up to the batch's
      volume plus the carryover, then touch the tip if asked. After the draw
      the tip holds exactly that, whatever it held before. */
  function BatchDraw(maxVolume: real, tip: TipState, volume: real, source: Place, n: nat,
                     doTouchTip: bool): (r: seq<Action>)
    ensures Replay(tip, r) == TipState(tip.hasTip, Times(n, volume) + maxVolume * Carryover)
  {
    var a := Aspirate(Times(n, volume) + maxVolume * Carryover - tip.volume, source, 1.0);
    var touch: seq<Action> := if doTouchTip then [TouchTip(DefaultTouchSpeed)] else [];
    ReplaySingle(tip, a);
    ReplayAppend(tip, [a], touch);
    ReplayInert(Step(tip, a), touch);
    [a] + touch
  }

  /** One more destination of a batch, unless the batch has already failed. */
  function DispenseNext(rig: Rig, done: Run, volume: real, source: WellRef, dest: Place,
                        o: DispenseOptions): (r: Run)
    requires Registered(rig.layouts, done.vols)
    ensures Registered(rig.layouts, r.vols)
    ensures r.tip.hasTip == done.tip.hasTip
    ensures r.outcome.Pass? && !o.doBlowout ==> r.tip.volume == done.tip.volume - volume
    ensures done.outcome != Fail(VolumeOutOfRange) ==> r.outcome != Fail(VolumeOutOfRange)
    ensures done.outcome.Fail? ==> r == done
  {
    if done.outcome.Fail? then done
    else Then(done, DispenseAndRecord(rig, done.vols, done.tip, volume, source, dest, o))
  }

  /** The inner loop of a batch: one dispense and record per destination,
      stopping at the first error. */
  function DispenseAll(rig: Rig, vols: Volumes, tip: TipState, volume: real,
                       source: WellRef, wells: seq<Place>, o: DispenseOptions): (r: Run)
    requires Registered(rig.layouts, vols)
    ensures Registered(rig.layouts, r.vols)
    ensures r.tip.hasTip == tip.hasTip
    ensures r.outcome != Fail(VolumeOutOfRange)
    decreases |wells|
  {
    if wells == [] then Run(vols, tip, [], Pass)
    else
      DispenseNext(rig, DispenseAll(rig, vols, tip, volume, source, wells[..|wells| - 1], o),
                   volume, source, wells[|wells| - 1], o)
  }

  /** A batch served without blow-outs takes n·v out of the tip. */
  lemma {:induction false} DispenseAllDrains(rig: Rig, vols: Volumes, tip: TipState, volume: real,
                                             source: WellRef, wells: seq<Place>, o: DispenseOptions)
    requires Registered(rig.layouts, vols)
    ensures var r := DispenseAll(rig, vols, tip, volume, source, wells, o);
      r.outcome.Pass? && !o.doBlowout ==> r.tip.volume == tip.volume - Times(|wells|, volume)
    decreases |wells|
  {
    if wells != [] {
      var init := wells[..|wells| - 1];
      DispenseAllDrains(rig, vols, tip, volume, source, init, o);
    }
  }

  lemma {:induction false} DispenseAllStop(rig: Rig, vols: Volumes, tip: TipState, volume: real,
                                           source: WellRef, wells: seq<Place>, o: DispenseOptions, k: nat)
    requires Registered(rig.layouts, vols)
    requires k <= |wells|
    requires DispenseAll(rig, vols, tip, volume, source, wells[..k], o).outcome.Fail?
    ensures DispenseAll(rig, vols, tip, volume, source, wells, o)
         == DispenseAll(rig, vols, tip, volume, source, wells[..k], o)
    decreases |wells|
  {
    if k < |wells| {
      var init := wells[..|wells| - 1];
      assert init[..k] == wells[..k];
      DispenseAllStop(rig, vols, tip, volume, source, init, o, k);
    } else {
      assert wells[..k] == wells;
    }
  }

  /** One iteration of the "distribute" loop: draw for the batch, then
      dispense into each of its destinations. A batch served without
      blow-outs leaves exactly the carryover in the tip. */
  function DistributeBatch(rig: Rig, vols: Volumes, tip: TipState, volume: real,
                           source: Place, batch: seq<Place>, o: DispenseOptions): (r: Run)
    requires Registered(rig.layouts, vols)
    ensures Registered(rig.layouts, r.vols)
    ensures r.tip.hasTip == tip.hasTip
    ensures r.outcome.Pass? && !o.doBlowout ==> r.tip.volume == rig.pipette.maxVolume * Carryover
    ensures r.outcome != Fail(VolumeOutOfRange)
  {
    var draw := BatchDraw(rig.pipette.maxVolume, tip, volume, source, |batch|, o.doTouchTip);
    var drawn := Replay(tip, draw);
    DispenseAllDrains(rig, vols, drawn, volume, source.well, batch, o);
    Then(Run(vols, drawn, draw, Pass), DispenseAll(rig, vols, drawn, volume, source.well, batch, o))
  }

  /** The "distribute" loop over the batches, stopping at the first error. */
  function DistributeTransfers(rig: Rig, vols: Volumes, tip: TipState, volume: real,
                               source: Place, batches: seq<seq<Place>>, o: DispenseOptions): (r: Run)
    requires Registered(rig.layouts, vols)
    ensures Registered(rig.layouts, r.vols)
    ensures r.tip.hasTip == tip.hasTip
    ensures r.outcome.Pass? && !o.doBlowout && batches != [] ==>
      r.tip.volume == rig.pipette.maxVolume * Carryover
    ensures r.outcome != Fail(VolumeOutOfRange)
    decreases |batches|
  {
    if batches == [] then Run(vols, tip, [], Pass)
    else
      var done := DistributeTransfers(rig, vols, tip, volume, source, batches[..|batches| - 1], o);
      if done.outcome.Fail? then done
      else Then(done, DistributeBatch(rig, done.vols, done.tip, volume, source, batches[|batches| - 1], o))
  }

  lemma {:induction false} DistributeTransfersStop(rig: Rig, vols: Volumes, tip: TipState, volume: real,
                                                   source: Place, batches: seq<seq<Place>>,
                                                   o: DispenseOptions, k: nat)
    requires Registered(rig.layouts, vols)
    requires k <= |batches|
    requires DistributeTransfers(rig, vols, tip, volume, source, batches[..k], o).outcome.Fail?
    ensures DistributeTransfers(rig, vols, tip, volume, source, batches, o)
         == DistributeTransfers(rig, vols, tip, volume, source, batches[..k], o)
    decreases |batches|
  {
    if k < |batches| {
      var init := batches[..|batches| - 1];
      assert init[..k] == batches[..k];
      DistributeTransfersStop(rig, vols, tip, volume, source, init, o, k);
    } else {
      assert batches[..k] == batches;
    }
  }

  /** Serving one more batch after a successful prefix of batches. */
  lemma DistributeTransfersSnoc(rig: Rig, vols: Volumes, tip: TipState, volume: real,
                                source: Place, served: seq<seq<Place>>, batch: seq<Place>, o: DispenseOptions)
    requires Registered(rig.layouts, vols)
    requires DistributeTransfers(rig, vols, tip, volume, source, served, o).outcome.Pass?
    ensures var done := DistributeTransfers(rig, vols, tip, volume, source, served, o);
      DistributeTransfers(rig, vols, tip, volume, source, served + [batch], o)
      == Then(done, DistributeBatch(rig, done.vols, done.tip, volume, source, batch, o))
  {
    assert (served + [batch])[..|served|] == served;
  }

  /** Popping a batch off the working list moves it from the batches still
      to come to the batches served. */
  lemma BatchesNext<T>(all: seq<seq<T>>, served: seq<seq<T>>, working: seq<T>, size: nat,
                       batch: seq<T>, rest: seq<T>)
    requires size >= 1 && working != []
    requires all == served + Batches(working, size)
    requires (batch, rest) == PopBatch(working, size)
    ensures all == (served + [batch]) + Batches(rest, size)
    ensures served + [batch] == all[..|served| + 1]
  {
    assert Batches(working, size) == [batch] + Batches(rest, size);
    assert all == (served + [batch]) + Batches(rest, size);
  }

  // ---------------------------------------------------------------------
  // custom_transfer

  /** A well given as the source is aspirated from 1 mm above its bottom. */
  function SourcePoint(source: Place): (p: Place)
    ensures p.well == source.well
  {
    if source.Well? then Bottom(source.well, 1.0, 0.0, 0.0) else source
  }

  /** Prewetting: fill and empty the tip once at the source, blow out above it
      if blow-outs are on, and touch the tip. */
  function PrewetActions(maxVolume: real, source: Place, opts: TransferOptions): seq<Action>
  {
    [Aspirate(maxVolume, source, 1.0), Dispense(maxVolume, Some(source), 1.0)]
    + (if opts.doBlowout then [BlowOut(Some(Bottom(source.well, opts.sourceBlowoutHeight, 0.0, 0.0)))] else [])
    + [TouchTip(DefaultTouchSpeed)]
  }

  /** Prewetting keeps the tip mounted or not, and leaves in it what it held
      before, or nothing when the blow-out empties it. */
  lemma PrewetEffect(maxVolume: real, tip: TipState, source: Place, opts: TransferOptions)
    ensures Replay(tip, PrewetActions(maxVolume, source, opts))
         == TipState(tip.hasTip, if opts.doBlowout then 0.0 else tip.volume)
  {
    var fill: seq<Action> := [Aspirate(maxVolume, source, 1.0), Dispense(maxVolume, Some(source), 1.0)];
    var blow: seq<Action> := if opts.doBlowout then [BlowOut(Some(Bottom(source.well, opts.sourceBlowoutHeight, 0.0, 0.0)))] else [];
    var touch: seq<Action> := [TouchTip(DefaultTouchSpeed)];
    assert fill[..1] == [fill[0]];
    ReplaySingle(tip, fill[0]);
    ReplayAppend(tip, fill + blow, touch);
    ReplayAppend(tip, fill, blow);
    if opts.doBlowout {
      ReplaySingle(Replay(tip, fill), blow[0]);
    }
    ReplayInert(Replay(tip, fill + blow), touch);
  }

  /** What happens before the first destination: a tip is picked up if none
      is mounted, and the tip is prewetted if asked. */
  function Preparation(maxVolume: real, tip: TipState, source: Place, opts: TransferOptions): seq<Action>
  {
    (if !tip.hasTip then [PickUpTip] else [])
    + (if opts.prewetTip then PrewetActions(maxVolume, source, opts) else [])
  }

  /** After the preparation a tip is mounted. */
  lemma PreparationMountsTip(maxVolume: real, tip: TipState, source: Place, opts: TransferOptions)
    ensures Replay(tip, Preparation(maxVolume, tip, source, opts)).hasTip
  {
    var pickup: seq<Action> := if !tip.hasTip then [PickUpTip] else [];
    var prewet: seq<Action> := if opts.prewetTip then PrewetActions(maxVolume, source, opts) else [];
    if !tip.hasTip {
      ReplaySingle(tip, PickUpTip);
    }
    ReplayAppend(tip, pickup, prewet);
    ReplayKeepsTip(Replay(tip, pickup), prewet);
  }

  /** The dispense options of a "single" transfer. */
  function SingleOptions(opts: TransferOptions): DispenseOptions
  {
    DispenseOptions(opts.direction, None, opts.dispenseHeight, opts.doBlowout, DefaultDestBlowoutHeight,
                    opts.doTouchTip, opts.dispenseRate, opts.inspectTips)
  }

  /** The dispense options of a "distribute" transfer: never a blow-out. */
  function DistributeOptions(opts: TransferOptions): DispenseOptions
  {
    SingleOptions(opts).(doBlowout := false)
  }

  /** The tip is dropped at the end when asked and nothing failed. */
  function Finish(r: Run, dropTip: bool): Run
  {
    if r.outcome.Pass? && dropTip then Then(r, Run(r.vols, Step(r.tip, DropTip), [DropTip], Pass)) else r
  }

  /** The "distribute" strategy once the tip is prepared: with no
      destinations and no even split the while loop never runs, whatever the
      batch size; otherwise a batch-size error ends the transfer, or the
      batches are served. */
  function DistributeStrategy(rig: Rig, vols: Volumes, tip: TipState, volume: real,
                              source: Place, dests: seq<Place>, opts: TransferOptions): (r: Run)
    requires Registered(rig.layouts, vols)
    requires volume > 0.0
    ensures Registered(rig.layouts, r.vols)
    ensures r.tip.hasTip == tip.hasTip
    ensures dests == [] && !opts.evenSplit ==> r == Run(vols, tip, [], Pass)
    ensures !(dests == [] && !opts.evenSplit) &&
            DistributeSize(rig.pipette.maxVolume, volume, |dests|, opts.evenSplit).Err? ==>
      r == Run(vols, tip, [], Fail(DistributeSize(rig.pipette.maxVolume, volume, |dests|, opts.evenSplit).error))
  {
    if dests == [] && !opts.evenSplit then Run(vols, tip, [], Pass)
    else
      var size := DistributeSize(rig.pipette.maxVolume, volume, |dests|, opts.evenSplit);
      if size.Err? then Run(vols, tip, [], Fail(size.error))
      else DistributeTransfers(rig, vols, tip, volume, source, Batches(dests, size.value), DistributeOptions(opts))
  }

  /** custom_transfer as a run. The volume must lie in the pipette's range;
      then the source is resolved, the tip prepared, and the destinations
      served by the named strategy; an unknown strategy serves none. */
  function CustomTransferSpec(rig: Rig, vols: Volumes, tip: TipState, volume: real,
                              source: Place, dests: seq<Place>, opts: TransferOptions): (r: Run)
    requires Registered(rig.layouts, vols)
    requires rig.pipette.minVolume > 0.0
    ensures Registered(rig.layouts, r.vols)
    ensures !(rig.pipette.minVolume <= volume <= rig.pipette.maxVolume) ==>
      r == Run(vols, tip, [], Fail(VolumeOutOfRange))
    ensures rig.pipette.minVolume <= volume <= rig.pipette.maxVolume &&
            opts.transferType == "distribute" && dests == [] && !opts.evenSplit ==>
      r.outcome == Pass && r.vols == vols && r.tip.hasTip == !opts.dropTip
  {
    if !(volume <= rig.pipette.maxVolume && volume >= rig.pipette.minVolume) then
      Run(vols, tip, [], Fail(VolumeOutOfRange))
    else
      var src := SourcePoint(source);
      var prep := Preparation(rig.pipette.maxVolume, tip, src, opts);
      var start := Run(vols, Replay(tip, prep), prep, Pass);
      if opts.transferType == "single" then
        Finish(Then(start, SingleTransfers(rig, vols, start.tip, volume, src, dests, SingleOptions(opts))),
               opts.dropTip)
      else if opts.transferType == "distribute" then
        PreparationMountsTip(rig.pipette.maxVolume, tip, src, opts);
        Finish(Then(start, DistributeStrategy(rig, vols, start.tip, volume, src, dests, opts)), opts.dropTip)
      else start
  }

  // ---------------------------------------------------------------------
  // Properties of custom_transfer

  /** The range check: a transfer fails with VolumeOutOfRange exactly when
      the volume is outside the pipette's range, and then does nothing. */
  lemma TransferRangeCheck(rig: Rig, vols: Volumes, tip: TipState, volume: real,
                           source: Place, dests: seq<Place>, opts: TransferOptions)
    requires Registered(rig.layouts, vols)
    requires rig.pipette.minVolume > 0.0
    ensures var r := CustomTransferSpec(rig, vols, tip, volume, source, dests, opts);
      && (r.outcome == Fail(VolumeOutOfRange) <==> !(rig.pipette.minVolume <= volume <= rig.pipette.maxVolume))
      && (r.outcome == Fail(VolumeOutOfRange) ==> r.vols == vols && r.tip == tip && r.actions == [])
  {
  }

  /** Whether the transfer strategy is one custom_transfer knows. */
  predicate KnownStrategy(transferType: string)
  {
    transferType == "single" || transferType == "distribute"
  }

  /** A completed transfer leaves a tip mounted exactly when it was not asked
      to drop it (an unknown strategy never drops it). */
  lemma TransferTip(rig: Rig, vols: Volumes, tip: TipState, volume: real,
                    source: Place, dests: seq<Place>, opts: TransferOptions)
    requires Registered(rig.layouts, vols)
    requires rig.pipette.minVolume > 0.0
    requires CustomTransferSpec(rig, vols, tip, volume, source, dests, opts).outcome.Pass?
    ensures CustomTransferSpec(rig, vols, tip, volume, source, dests, opts).tip.hasTip
        <==> !(opts.dropTip && KnownStrategy(opts.transferType))
  {
    PreparationMountsTip(rig.pipette.maxVolume, tip, SourcePoint(source), opts);
  }

  /** A completed distribute transfer that keeps its tip still holds exactly
      the carryover: every batch is topped up to its volume plus the
      carryover and hands out only its volume. */
  lemma DistributeKeepsCarryover(rig: Rig, vols: Volumes, tip: TipState, volume: real,
                                 source: Place, dests: seq<Place>, opts: TransferOptions)
    requires Registered(rig.layouts, vols)
    requires rig.pipette.minVolume > 0.0
    requires opts.transferType == "distribute" && !opts.dropTip && dests != []
    requires CustomTransferSpec(rig, vols, tip, volume, source, dests, opts).outcome.Pass?
    ensures CustomTransferSpec(rig, vols, tip, volume, source, dests, opts).tip.volume
         == rig.pipette.maxVolume * Carryover
  {
    var size := DistributeSize(rig.pipette.maxVolume, volume, |dests|, opts.evenSplit).value;
    assert Batches(dests, size) != [];
  }

  // ---------------------------------------------------------------------
  // The ledger side

  /** The ledger and outcome after a sequence of adjustments. */
  datatype Ledgered = Ledgered(vols: Volumes, outcome: Outcome)

  /** adjust_well_volume from one source to each destination in turn,
      stopping at the first error. */
  function AdjustEach(layouts: map<string, Plate>, vols: Volumes, volume: real,
                      source: WellRef, dests: seq<Place>, channels: int): (r: Ledgered)
    requires Registered(layouts, vols)
    ensures Registered(layouts, r.vols)
    decreases |dests|
  {
    if dests == [] then Ledgered(vols, Pass)
    else
      var done := AdjustEach(layouts, vols, volume, source, dests[..|dests| - 1], channels);
      if done.outcome.Fail? then done
      else
        var a := AdjustSpec(layouts, done.vols, volume, source, dests[|dests| - 1].well, channels);
        Ledgered(a.0, a.1)
  }

  /** Adjusting for a + b is adjusting for a and then, if that succeeded, for b. */
  lemma {:induction false} AdjustEachAppend(layouts: map<string, Plate>, vols: Volumes, volume: real,
                                            source: WellRef, a: seq<Place>, b: seq<Place>, channels: int)
    requires Registered(layouts, vols)
    requires AdjustEach(layouts, vols, volume, source, a, channels).outcome.Pass?
    ensures AdjustEach(layouts, vols, volume, source, a + b, channels)
         == AdjustEach(layouts, AdjustEach(layouts, vols, volume, source, a, channels).vols, volume, source, b, channels)
    decreases |b|
  {
    if b == [] {
      assert a + b == a;
    } else {
      var b' := b[..|b| - 1];
      AdjustEachAppend(layouts, vols, volume, source, a, b', channels);
      assert (a + b)[..|a + b| - 1] == a + b';
      assert (a + b)[|a + b| - 1] == b[|b| - 1];
    }
  }

  /** A completed "single" loop records one adjustment per destination, in
      list order. */
  lemma {:induction false} SingleTransfersLedger(rig: Rig, vols: Volumes, tip: TipState, volume: real,
                                                 source: Place, dests: seq<Place>, o: DispenseOptions)
    requires Registered(rig.layouts, vols)
    requires SingleTransfers(rig, vols, tip, volume, source, dests, o).outcome.Pass?
    ensures var e := AdjustEach(rig.layouts, vols, volume, source.well, dests, rig.pipette.channels);
      e.outcome == Pass && SingleTransfers(rig, vols, tip, volume, source, dests, o).vols == e.vols
    decreases |dests|
  {
    if dests != [] {
      SingleTransfersLedger(rig, vols, tip, volume, source, dests[..|dests| - 1], o);
    }
  }

  /** A completed batch records one adjustment per destination of the batch. */
  lemma {:induction false} DispenseAllLedger(rig: Rig, vols: Volumes, tip: TipState, volume: real,
                                             source: WellRef, wells: seq<Place>, o: DispenseOptions)
    requires Registered(rig.layouts, vols)
    requires DispenseAll(rig, vols, tip, volume, source, wells, o).outcome.Pass?
    ensures var e := AdjustEach(rig.layouts, vols, volume, source, wells, rig.pipette.channels);
      e.outcome == Pass && DispenseAll(rig, vols, tip, volume, source, wells, o).vols == e.vols
    decreases |wells|
  {
    if wells != [] {
      DispenseAllLedger(rig, vols, tip, volume, source, wells[..|wells| - 1], o);
    }
  }

  /** The batches, served one after the other, as one list. */
  function Served<T>(bs: seq<seq<T>>): seq<T>
    decreases |bs|
  {
    if bs == [] then [] else Served(bs[..|bs| - 1]) + bs[|bs| - 1]
  }

  lemma {:induction false} ServedIsFlatten<T>(bs: seq<seq<T>>)
    ensures Served(bs) == Flatten(bs)
    decreases |bs|
  {
    if bs != [] {
      var init := bs[..|bs| - 1];
      ServedIsFlatten(init);
      FlattenAppend(init, [bs[|bs| - 1]]);
      assert init + [bs[|bs| - 1]] == bs;
      assert [bs[|bs| - 1]][1..] == [];
    }
  }

  lemma {:induction false} FlattenAppend<T>(a: seq<seq<T>>, b: seq<seq<T>>)
    ensures Flatten(a + b) == Flatten(a) + Flatten(b)
    decreases |a|
  {
    if a == [] {
      assert a + b == b;
    } else {
      FlattenAppend(a[1..], b);
      assert (a + b)[1..] == a[1..] + b;
    }
  }

  /** A completed "distribute" loop records one adjustment per destination,
      batch after batch. */
  lemma {:induction false} DistributeTransfersLedger(rig: Rig, vols: Volumes, tip: TipState, volume: real,
                                                     source: Place, batches: seq<seq<Place>>, o: DispenseOptions)
    requires Registered(rig.layouts, vols)
    requires DistributeTransfers(rig, vols, tip, volume, source, batches, o).outcome.Pass?
    ensures var e := AdjustEach(rig.layouts, vols, volume, source.well, Served(batches), rig.pipette.channels);
      e.outcome == Pass && DistributeTransfers(rig, vols, tip, volume, source, batches, o).vols == e.vols
    decreases |batches|
  {
    if batches != [] {
      var init := batches[..|batches| - 1];
      var last := batches[|batches| - 1];
      DistributeTransfersLedger(rig, vols, tip, volume, source, init, o);
      var done := DistributeTransfers(rig, vols, tip, volume, source, init, o);
      var draw := BatchDraw(rig.pipette.maxVolume, done.tip, volume, source, |last|, o.doTouchTip);
      DispenseAllLedger(rig, done.vols, Replay(done.tip, draw), volume, source.well, last, o);
      AdjustEachAppend(rig.layouts, vols, volume, source.well, Served(init), last, rig.pipette.channels);
    }
  }

  /** The order in which a strategy serves the destinations: list order for
      "single", reverse list order for "distribute" (batches are popped from
      the end), none for an unknown strategy. */
  function ServiceOrder(transferType: string, dests: seq<Place>): seq<Place>
  {
    if transferType == "single" then dests
    else if transferType == "distribute" then Reverse(dests)
    else []
  }

  /** A completed transfer records exactly one adjustment of the transfer
      volume from the source to each destination, in service order. */
  lemma TransferLedger(rig: Rig, vols: Volumes, tip: TipState, volume: real,
                       source: Place, dests: seq<Place>, opts: TransferOptions)
    requires Registered(rig.layouts, vols)
    requires rig.pipette.minVolume > 0.0
    requires CustomTransferSpec(rig, vols, tip, volume, source, dests, opts).outcome.Pass?
    ensures var e := AdjustEach(rig.layouts, vols, volume, source.well, ServiceOrder(opts.transferType, dests),
                                rig.pipette.channels);
      e.outcome == Pass && CustomTransferSpec(rig, vols, tip, volume, source, dests, opts).vols == e.vols
  {
    var src := SourcePoint(source);
    var prep := Preparation(rig.pipette.maxVolume, tip, src, opts);
    var t := Replay(tip, prep);
    if opts.transferType == "single" {
      SingleTransfersLedger(rig, vols, t, volume, src, dests, SingleOptions(opts));
    } else if opts.transferType == "distribute" {
      var size := DistributeSize(rig.pipette.maxVolume, volume, |dests|, opts.evenSplit);
      if size.Ok? {
        var batches := Batches(dests, size.value);
        DistributeTransfersLedger(rig, vols, t, volume, src, batches, DistributeOptions(opts));
        ServedIsFlatten(batches);
        BatchesReverse(dests, size.value);
      }
    }
  }

  /** Adjustments among tracked plates only (no trash destination) keep the
      total volume of the ledger. */
  lemma {:induction false} AdjustEachConserves(layouts: map<string, Plate>, vols: Volumes, volume: real,
                                               source: WellRef, dests: seq<Place>, channels: nat)
    requires Registered(layouts, vols)
    requires forall i | 0 <= i < |dests| :: !IsTrash(dests[i].well.plate)
    requires AdjustEach(layouts, vols, volume, source, dests, channels).outcome.Pass?
    ensures Total(AdjustEach(layouts, vols, volume, source, dests, channels).vols) == Total(vols)
    decreases |dests|
  {
    if dests != [] {
      var init := dests[..|dests| - 1];
      AdjustEachConserves(layouts, vols, volume, source, init, channels);
      var done := AdjustEach(layouts, vols, volume, source, init, channels);
      AdjustConserves(layouts, done.vols, volume, source, dests[|dests| - 1].well, channels);
    }
  }

  /** A completed transfer into tracked plates keeps the ledger's total. */
  lemma TransferConserves(rig: Rig, vols: Volumes, tip: TipState, volume: real,
                          source: Place, dests: seq<Place>, opts: TransferOptions)
    requires Registered(rig.layouts, vols)
    requires rig.pipette.minVolume > 0.0
    requires forall i | 0 <= i < |dests| :: !IsTrash(dests[i].well.plate)
    requires CustomTransferSpec(rig, vols, tip, volume, source, dests, opts).outcome.Pass?
    ensures Total(CustomTransferSpec(rig, vols, tip, volume, source, dests, opts).vols) == Total(vols)
  {
    TransferLedger(rig, vols, tip, volume, source, dests, opts);
    var order := ServiceOrder(opts.transferType, dests);
    forall i | 0 <= i < |order| ensures !IsTrash(order[i].well.plate) {
      if opts.transferType == "distribute" {
        ReverseIndex(dests, i);
      }
    }
    AdjustEachConserves(rig.layouts, vols, volume, source.well, order, rig.pipette.channels);
  }

  // ---------------------------------------------------------------------
  // The routine

  /** The rig a ledger, a pipette and a table of well shapes make up. */
  function RigOf(ledger: VolumeLedger, pip: Pipette, shapeOf: WellRef -> WellShape): Rig
  {
    Rig(ledger.layouts, pip.Info(), shapeOf)
  }

  /** The ledger, the tip and the pipette's log are those the run leaves, the
      log extending log0. */
  ghost predicate Made(ledger: VolumeLedger, pip: Pipette, log0: seq<Action>, r: Run)
    reads ledger, pip
  {
    ledger.volumes == r.vols && pip.State() == r.tip && pip.log == log0 + r.actions
  }

  /** offset_dispense into dest, then adjust_well_volume from source to dest. */
  method DispenseAndRecordStep(ledger: VolumeLedger, pip: Pipette, shapeOf: WellRef -> WellShape,
                               volume: real, source: Place, dest: Place, o: DispenseOptions)
    returns (r: Outcome)
    requires ledger.Valid() && pip.Valid()
    modifies ledger, pip
    ensures ledger.Valid() && pip.Valid()
    ensures var R := DispenseAndRecord(RigOf(ledger, pip, shapeOf), old(ledger.volumes), old(pip.State()),
                                       volume, source.well, dest, o);
      Made(ledger, pip, old(pip.log), R) && r == R.outcome
  {
    r := OffsetDispense(pip, shapeOf(dest.well), dest, volume, o);
    if r.Fail? {
      assert pip.log == old(pip.log) + [];
      return;
    }
    // adjust well volumes
    r := ledger.Adjust(volume, source, dest, pip.channels);
  }

  /** A run made from log0 + first.actions onward, after first, is the run
      made by both from log0 onward. */
  lemma MadeThen(ledger: VolumeLedger, pip: Pipette, log0: seq<Action>, first: Run, next: Run)
    requires Made(ledger, pip, log0 + first.actions, next)
    ensures Made(ledger, pip, log0, Then(first, next))
  {
    assert log0 + first.actions + next.actions == log0 + (first.actions + next.actions);
  }

  /** One iteration of the "single" loop. */
  method SingleStepAt(ledger: VolumeLedger, pip: Pipette, shapeOf: WellRef -> WellShape,
                      volume: real, source: Place, dest: Place, o: DispenseOptions)
    returns (r: Outcome)
    requires ledger.Valid() && pip.Valid()
    modifies ledger, pip
    ensures ledger.Valid() && pip.Valid()
    ensures var R := SingleStep(RigOf(ledger, pip, shapeOf), old(ledger.volumes), old(pip.State()),
                                volume, source, dest, o);
      Made(ledger, pip, old(pip.log), R) && r == R.outcome
  {
    ghost var rig, vols0, tip0, log0 := RigOf(ledger, pip, shapeOf), ledger.volumes, pip.State(), pip.log;
    ghost var draw := SingleDraw(volume, source);
    AspirateAndTouch(pip, volume, source);
    r := DispenseAndRecordStep(ledger, pip, shapeOf, volume, source, dest, o);
    MadeThen(ledger, pip, log0, Run(vols0, Replay(tip0, draw), draw, Pass),
             DispenseAndRecord(rig, vols0, Replay(tip0, draw), volume, source.well, dest, o));
  }

  /** Aspirate the volume at the source, then touch the tip. */
  method AspirateAndTouch(pip: Pipette, volume: real, source: Place)
    requires pip.Valid()
    modifies pip
    ensures pip.Valid()
    ensures pip.log == old(pip.log) + SingleDraw(volume, source)
    ensures pip.State() == Replay(old(pip.State()), SingleDraw(volume, source))
  {
    SingleDrawEffect(pip.State(), volume, source);
    pip.Perform(Aspirate(volume, source, 1.0));
    pip.Perform(TouchTip(DefaultTouchSpeed));
    assert pip.log == old(pip.log) + SingleDraw(volume, source);
  }

  /** The "single" strategy: for each destination in list order, aspirate,
      touch the tip, offset-dispense and record. */
  method SingleTransfer(ledger: VolumeLedger, pip: Pipette, shapeOf: WellRef -> WellShape,
                        volume: real, source: Place, dests: seq<Place>, o: DispenseOptions)
    returns (r: Outcome)
    requires ledger.Valid() && pip.Valid()
    modifies ledger, pip
    ensures ledger.Valid() && pip.Valid()
    ensures var R := SingleTransfers(RigOf(ledger, pip, shapeOf), old(ledger.volumes), old(pip.State()),
                                     volume, source, dests, o);
      Made(ledger, pip, old(pip.log), R) && r == R.outcome
  {
    ghost var rig := RigOf(ledger, pip, shapeOf);
    ghost var vols0, tip0, log0 := ledger.volumes, pip.State(), pip.log;
    r := Pass;
    for i := 0 to |dests|
      invariant ledger.Valid() && pip.Valid()
      invariant r == Pass
      invariant Made(ledger, pip, log0, SingleTransfers(rig, vols0, tip0, volume, source, dests[..i], o))
      invariant SingleTransfers(rig, vols0, tip0, volume, source, dests[..i], o).outcome == Pass
    {
      ghost var done := SingleTransfers(rig, vols0, tip0, volume, source, dests[..i], o);
      assert dests[..i + 1][..i] == dests[..i];
      r := SingleStepAt(ledger, pip, shapeOf, volume, source, dests[i], o);
      MadeThen(ledger, pip, log0, done, SingleStep(rig, done.vols, done.tip, volume, source, dests[i], o));
      if r.Fail? {
        SingleTransfersStop(rig, vols0, tip0, volume, source, dests, o, i + 1);
        return;
      }
    }
    assert dests[..|dests|] == dests;
  }

  /** The inner loop of a batch: offset-dispense into and record each
      destination of the batch, in batch order. */
  method DispenseBatch(ledger: VolumeLedger, pip: Pipette, shapeOf: WellRef -> WellShape,
                       volume: real, source: Place, batch: seq<Place>, o: DispenseOptions)
    returns (r: Outcome)
    requires ledger.Valid() && pip.Valid()
    modifies ledger, pip
    ensures ledger.Valid() && pip.Valid()
    ensures var R := DispenseAll(RigOf(ledger, pip, shapeOf), old(ledger.volumes), old(pip.State()),
                                 volume, source.well, batch, o);
      Made(ledger, pip, old(pip.log), R) && r == R.outcome
  {
    ghost var rig := RigOf(ledger, pip, shapeOf);
    ghost var vols0, tip0, log0 := ledger.volumes, pip.State(), pip.log;
    r := Pass;
    for i := 0 to |batch|
      invariant ledger.Valid() && pip.Valid()
      invariant r == Pass
      invariant Made(ledger, pip, log0, DispenseAll(rig, vols0, tip0, volume, source.well, batch[..i], o))
      invariant DispenseAll(rig, vols0, tip0, volume, source.well, batch[..i], o).outcome == Pass
    {
      ghost var done := DispenseAll(rig, vols0, tip0, volume, source.well, batch[..i], o);
      assert batch[..i + 1][..i] == batch[..i];
      r := DispenseAndRecordStep(ledger, pip, shapeOf, volume, source, batch[i], o);
      MadeThen(ledger, pip, log0, done, DispenseAndRecord(rig, done.vols, done.tip, volume, source.well, batch[i], o));
      if r.Fail? {
        DispenseAllStop(rig, vols0, tip0, volume, source.well, batch, o, i + 1);
        return;
      }
    }
    assert batch[..|batch|] == batch;
  }

  /** One iteration of the "distribute" loop, once its batch is popped: top
      the tip up, touch it if asked, and serve the batch. */
  method DistributeBatchStep(ledger: VolumeLedger, pip: Pipette, shapeOf: WellRef -> WellShape,
                             volume: real, source: Place, batch: seq<Place>, o: DispenseOptions)
    returns (r: Outcome)
    requires ledger.Valid() && pip.Valid()
    modifies ledger, pip
    ensures ledger.Valid() && pip.Valid()
    ensures var R := DistributeBatch(RigOf(ledger, pip, shapeOf), old(ledger.volumes), old(pip.State()),
                                     volume, source, batch, o);
      Made(ledger, pip, old(pip.log), R) && r == R.outcome
  {
    ghost var rig, vols0, tip0, log0 := RigOf(ledger, pip, shapeOf), ledger.volumes, pip.State(), pip.log;
    ghost var draw := BatchDraw(pip.maxVolume, tip0, volume, source, |batch|, o.doTouchTip);
    TopUp(pip, volume, source, |batch|, o.doTouchTip);
    r := DispenseBatch(ledger, pip, shapeOf, volume, source, batch, o);
    MadeThen(ledger, pip, log0, Run(vols0, Replay(tip0, draw), draw, Pass),
             DispenseAll(rig, vols0, Replay(tip0, draw), volume, source.well, batch, o));
  }

  /** Aspirates what the next n destinations need plus the carryover, less
      what the tip already holds, then touches the tip if asked. */
  method TopUp(pip: Pipette, volume: real, source: Place, n: nat, doTouchTip: bool)
    requires pip.Valid()
    modifies pip
    ensures pip.Valid()
    ensures pip.log == old(pip.log) + BatchDraw(pip.maxVolume, old(pip.State()), volume, source, n, doTouchTip)
    ensures pip.State() == Replay(old(pip.State()), BatchDraw(pip.maxVolume, old(pip.State()), volume, source, n, doTouchTip))
  {
    // calculate the volume to aspirate, accounting for the volume already in the pipette
    var aspirateVolume := Times(n, volume) + pip.maxVolume * Carryover;
    pip.Perform(Aspirate(aspirateVolume - pip.currentVolume, source, 1.0));
    if doTouchTip {
      pip.Perform(TouchTip(DefaultTouchSpeed));
    }
    assert pip.log == old(pip.log) + BatchDraw(pip.maxVolume, old(pip.State()), volume, source, n, doTouchTip);
  }

  /** The "distribute" strategy: while destinations remain, pop up to size of
      them from the end of the working list and serve them as one batch. */
  method Distribute(ledger: VolumeLedger, pip: Pipette, shapeOf: WellRef -> WellShape,
                    volume: real, source: Place, dests: seq<Place>, size: nat, o: DispenseOptions)
    returns (r: Outcome)
    requires size >= 1
    requires ledger.Valid() && pip.Valid()
    modifies ledger, pip
    ensures ledger.Valid() && pip.Valid()
    ensures var R := DistributeTransfers(RigOf(ledger, pip, shapeOf), old(ledger.volumes), old(pip.State()),
                                         volume, source, Batches(dests, size), o);
      Made(ledger, pip, old(pip.log), R) && r == R.outcome
  {
    ghost var rig := RigOf(ledger, pip, shapeOf);
    ghost var vols0, tip0, log0 := ledger.volumes, pip.State(), pip.log;
    ghost var served: seq<seq<Place>> := [];
    var working := dests;
    r := Pass;
    while |working| > 0
      invariant ledger.Valid() && pip.Valid()
      invariant r == Pass
      invariant Batches(dests, size) == served + Batches(working, size)
      invariant Made(ledger, pip, log0, DistributeTransfers(rig, vols0, tip0, volume, source, served, o))
      invariant DistributeTransfers(rig, vols0, tip0, volume, source, served, o).outcome == Pass
      decreases |working|
    {
      // move up to size destinations from the end of the working list
      ghost var before := working;
      var batch;
      batch, working := PopDestinations(working, size);
      BatchesNext(Batches(dests, size), served, before, size, batch, working);

      ghost var done := DistributeTransfers(rig, vols0, tip0, volume, source, served, o);
      r := DistributeBatchStep(ledger, pip, shapeOf, volume, source, batch, o);
      DistributeTransfersSnoc(rig, vols0, tip0, volume, source, served, batch, o);
      MadeThen(ledger, pip, log0, done, DistributeBatch(rig, done.vols, done.tip, volume, source, batch, o));
      served := served + [batch];
      if r.Fail? {
        DistributeTransfersStop(rig, vols0, tip0, volume, source, Batches(dests, size), o, |served|);
        return;
      }
    }
    assert served == Batches(dests, size);
  }

  /** The inner loop of the "distribute" strategy: up to k pops from the end
      of the working list, in pop order, and what is left. */
  method PopDestinations<T>(working: seq<T>, k: nat) returns (batch: seq<T>, rest: seq<T>)
    ensures (batch, rest) == PopBatch(working, k)
  {
    batch, rest := [], working;
    DistributeStalls(working);
    for i := 0 to k
      invariant (batch, rest) == PopBatch(working, i)
    {
      if |rest| > 0 {
        PopOneMore(working, i);
        batch := batch + [rest[|rest| - 1]];
        rest := rest[..|rest| - 1];
      }
    }
  }

  /** Picks up a tip if none is mounted, then prewets it if asked. */
  method Prepare(pip: Pipette, source: Place, opts: TransferOptions)
    requires pip.Valid()
    modifies pip
    ensures pip.Valid()
    ensures pip.log == old(pip.log) + Preparation(pip.maxVolume, old(pip.State()), source, opts)
    ensures pip.State() == Replay(old(pip.State()), Preparation(pip.maxVolume, old(pip.State()), source, opts))
  {
    ghost var log0, tip0 := pip.log, pip.State();
    PickUpIfNeeded(pip);
    if opts.prewetTip {
      Prewet(pip, source, opts);
    }
    ghost var prep := Preparation(pip.maxVolume, tip0, source, opts);
    assert pip.log == log0 + prep;
    StateFromLog(pip, log0, tip0, prep);
  }

  /** pick up a tip if the pipette doesn't have one */
  method PickUpIfNeeded(pip: Pipette)
    requires pip.Valid()
    modifies pip
    ensures pip.Valid()
    ensures pip.log == old(pip.log) + (if old(pip.hasTip) then [] else [PickUpTip])
  {
    if !pip.hasTip {
      pip.Perform(PickUpTip);
    } else {
      assert pip.log == old(pip.log) + [];
    }
  }

  /** The tip state of a valid pipette follows from its log. */
  lemma StateFromLog(pip: Pipette, log0: seq<Action>, s0: TipState, actions: seq<Action>)
    requires pip.Valid() && pip.log == log0 + actions && s0 == Replay(pip.initial, log0)
    ensures pip.State() == Replay(s0, actions)
  {
    ReplayAppend(pip.initial, log0, actions);
  }

  /** Fills and empties the tip once at the source, blows out above it if
      blow-outs are on, and touches the tip. */
  method Prewet(pip: Pipette, source: Place, opts: TransferOptions)
    requires pip.Valid()
    modifies pip
    ensures pip.Valid()
    ensures pip.log == old(pip.log) + PrewetActions(pip.maxVolume, source, opts)
  {
    pip.Perform(Aspirate(pip.maxVolume, source, 1.0));
    pip.Perform(Dispense(pip.maxVolume, Some(source), 1.0));
    if opts.doBlowout {
      // blow out above the aspirate location
      pip.Perform(BlowOut(Some(Bottom(source.well, opts.sourceBlowoutHeight, 0.0, 0.0))));
    }
    pip.Perform(TouchTip(DefaultTouchSpeed));
  }

  /** The batch size of a distribute transfer, computed as custom_transfer
      does: the capacity count, refused when zero, then with an even split
      the count that spreads the same number of aspirates evenly. */
  method BatchSize(maxVolume: real, volume: real, n: nat, evenSplit: bool) returns (r: Result<nat>)
    requires volume > 0.0
    ensures r == DistributeSize(maxVolume, volume, n, evenSplit)
    ensures r.Ok? ==> 1 <= r.value <= MaxWellsPerAspirate(maxVolume, volume)
    ensures r.Ok? ==> r.value as real * volume <= maxVolume * (1.0 - Carryover)
    ensures r.Ok? && evenSplit ==> forall b :: 1 <= b < r.value ==>
      CeilDiv(n, b) > CeilDiv(n, MaxWellsPerAspirate(maxVolume, volume))
  {
    // the number of wells one aspirate can serve
    var size := MaxWellsPerAspirate(maxVolume, volume);
    if size <= 0 {
      return Err(NoDistributeCapacity);
    }
    if evenSplit {
      // the same number of aspirates, split as evenly as possible
      if n == 0 {
        return Err(EmptyEvenSplit);
      }
      var groups := CeilDiv(n, size);
      size := CeilDiv(n, groups);
    }
    return Ok(size);
  }

  /** The "distribute" branch of custom_transfer after the preparation: the
      batch size, then the while loop over the batches. */
  method DistributeStrategyAt(ledger: VolumeLedger, pip: Pipette, shapeOf: WellRef -> WellShape,
                              volume: real, source: Place, dests: seq<Place>, opts: TransferOptions)
    returns (r: Outcome)
    requires volume > 0.0
    requires ledger.Valid() && pip.Valid()
    modifies ledger, pip
    ensures ledger.Valid() && pip.Valid()
    ensures var R := DistributeStrategy(RigOf(ledger, pip, shapeOf), old(ledger.volumes), old(pip.State()),
                                        volume, source, dests, opts);
      Made(ledger, pip, old(pip.log), R) && r == R.outcome
  {
    var size := BatchSize(pip.maxVolume, volume, |dests|, opts.evenSplit);
    if dests == [] && !opts.evenSplit {
      // no destinations to serve: the loop never runs
      assert pip.log == old(pip.log) + [];
      return Pass;
    }
    if size.Err? {
      assert pip.log == old(pip.log) + [];
      return Fail(size.error);
    }
    r := Distribute(ledger, pip, shapeOf, volume, source, dests, size.value, DistributeOptions(opts));
  }

  /** custom_transfer: moves `volume` from the source to every destination
      with the pipette, by the chosen strategy, recording each transfer in
      the ledger; it makes exactly the run CustomTransferSpec describes. */
  method CustomTransfer(ledger: VolumeLedger, pip: Pipette, shapeOf: WellRef -> WellShape,
                        volume: real, source: Place, dests: seq<Place>, opts: TransferOptions)
    returns (r: Outcome)
    requires ledger.Valid() && pip.Valid()
    modifies ledger, pip
    ensures ledger.Valid() && pip.Valid()
    ensures var R := CustomTransferSpec(RigOf(ledger, pip, shapeOf), old(ledger.volumes), old(pip.State()),
                                        volume, source, dests, opts);
      Made(ledger, pip, old(pip.log), R) && r == R.outcome
  {
    ghost var rig, vols0, tip0, log0 := RigOf(ledger, pip, shapeOf), ledger.volumes, pip.State(), pip.log;
    // the transfer volume must be in the pipette's range
    if !(volume <= pip.maxVolume && volume >= pip.minVolume) {
      assert pip.log == log0 + [];
      return Fail(VolumeOutOfRange);
    }
    // a well as the source is aspirated from just above its bottom
    var src := SourcePoint(source);
    Prepare(pip, src, opts);
    ghost var prep := Preparation(pip.maxVolume, tip0, src, opts);
    ghost var start := Run(vols0, Replay(tip0, prep), prep, Pass);
    ghost var served: Run;

    if opts.transferType == "single" {
      r := SingleTransfer(ledger, pip, shapeOf, volume, src, dests, SingleOptions(opts));
      served := Then(start, SingleTransfers(rig, vols0, start.tip, volume, src, dests, SingleOptions(opts)));
      MadeThen(ledger, pip, log0, start, SingleTransfers(rig, vols0, start.tip, volume, src, dests, SingleOptions(opts)));
    } else if opts.transferType == "distribute" {
      r := DistributeStrategyAt(ledger, pip, shapeOf, volume, src, dests, opts);
      served := Then(start, DistributeStrategy(rig, vols0, start.tip, volume, src, dests, opts));
      MadeThen(ledger, pip, log0, start, DistributeStrategy(rig, vols0, start.tip, volume, src, dests, opts));
    } else {
      return Pass;
    }
    assert CustomTransferSpec(rig, vols0, tip0, volume, source, dests, opts) == Finish(served, opts.dropTip);
    if r.Pass? && opts.dropTip {
      pip.Perform(DropTip);
      MadeThen(ledger, pip, log0, served, Run(served.vols, Step(served.tip, DropTip), [DropTip], Pass));
    }
  }
}
