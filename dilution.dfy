/** serial_dilution: a volume is carried from each well of a list to the
    next, mixing after each transfer, and the surplus of the last well is
    discarded into the trash. */
module Dilution {
  import opened Outcomes
  import opened Labware
  import opened Ledger
  import opened Hardware
  import opened Transfer
  import opened TransferRun

  /** The keyword arguments of serial_dilution that shape the mixing and the
      tips; none of them reaches the ledger. */
  datatype DilutionOptions = DilutionOptions(
    mixSteps: nat,
    dispenseHeight: real,
    blowoutHeight: real,
    mixBefore: bool,
    doBlowout: bool,
    alwaysNewTip: bool)

  /** Rate of every dispense of the dilution, and of the mixing aspirates after a transfer. */
  const FastRate: real := 10.0
  /** Pause after each mix cycle, in seconds. */
  const MixDelay: real := 0.5

  /** One mix cycle at well w: draw the mix volume, push it back out just
      above the bottom, pause. */
  function MixCycle(w: WellRef, mixVolume: real, rate: real, o: DilutionOptions): seq<Action>
  {
    [Aspirate(mixVolume, Well(w), rate), Dispense(mixVolume, Some(Bottom(w, o.dispenseHeight, 0.0, 0.0)), FastRate),
     Delay(MixDelay)]
  }

  /** n mix cycles at well w. */
  function Mixing(w: WellRef, mixVolume: real, rate: real, o: DilutionOptions, n: nat): (r: seq<Action>)
    ensures |r| == 3 * n
    decreases n
  {
    if n == 0 then [] else Mixing(w, mixVolume, rate, o, n - 1) + MixCycle(w, mixVolume, rate, o)
  }

  /** Mixing gives back what it draws: n mix cycles leave the tip as they
      found it. */
  lemma {:induction false} MixingKeepsTip(tip: TipState, w: WellRef, mixVolume: real, rate: real,
                                          o: DilutionOptions, n: nat)
    ensures Replay(tip, Mixing(w, mixVolume, rate, o, n)) == tip
    decreases n
  {
    if n > 0 {
      var before := Mixing(w, mixVolume, rate, o, n - 1);
      var cycle := MixCycle(w, mixVolume, rate, o);
      MixingKeepsTip(tip, w, mixVolume, rate, o, n - 1);
      ReplayAppend(tip, before, cycle);
      assert cycle[..2][..1] == [cycle[0]] && [cycle[0]][..0] == [];
      assert cycle[..2] == cycle[..|cycle| - 1];
      var t := Replay(tip, before);
      assert Replay(t, [cycle[0]]) == t.(volume := t.volume + mixVolume);
      assert Replay(t, cycle[..2]) == t;
    }
  }

  /** After mixing at w: blow out above the bottom if asked, touch the tip
      at the slow speed. */
  function Finishing(w: WellRef, o: DilutionOptions): seq<Action>
  {
    (if o.doBlowout then [BlowOut(Some(Bottom(w, o.blowoutHeight, 0.0, 0.0)))] else [])
    + [TouchTip(SlowTouchSpeed)]
  }

  /** The mixing before the serial transfers, at the first well. With no
      wells at all, the first read of the missing first well ends it (the
      touch happens only when nothing reads that well). */
  function PreMix(wells: seq<WellRef>, mixVolume: real, o: DilutionOptions): seq<Action>
  {
    if !o.mixBefore then []
    else if wells == [] then (if o.mixSteps == 0 && !o.doBlowout then [TouchTip(SlowTouchSpeed)] else [])
    else Mixing(wells[0], mixVolume, 1.0, o, o.mixSteps) + Finishing(wells[0], o)
  }

  /** The liquid moves of one serial transfer: draw from one well, push into the next. */
  function Carry(from: WellRef, to: WellRef, volume: real): seq<Action>
  {
    [Aspirate(volume, Well(from), 1.0), Dispense(volume, Some(Well(to)), FastRate)]
  }

  /** What follows a recorded transfer: mixing in the receiving well, the
      blow-out and touch, and a fresh tip if one is asked for every step. */
  function AfterCarry(to: WellRef, mixVolume: real, o: DilutionOptions): seq<Action>
  {
    Mixing(to, mixVolume, FastRate, o, o.mixSteps) + Finishing(to, o)
    + (if o.alwaysNewTip then [DropTip, PickUpTip] else [])
  }

  /** None of the wells is in the trash. */
  predicate NoTrash(wells: seq<WellRef>)
  {
    forall i | 0 <= i < |wells| :: !IsTrash(wells[i].plate)
  }

  /** One serial transfer from one well to the next, recorded in the ledger. */
  function DilutionStep(layouts: map<string, Plate>, channels: int, vols: Volumes, tip: TipState,
                        from: WellRef, to: WellRef, volume: real, mixVolume: real, o: DilutionOptions): (r: Run)
    requires Registered(layouts, vols)
    ensures r.vols.Keys == vols.Keys && forall q | q in vols :: r.vols[q].Keys == vols[q].Keys
    ensures r.vols == AdjustSpec(layouts, vols, volume, from, to, channels).0
    ensures r.outcome == AdjustSpec(layouts, vols, volume, from, to, channels).1
  {
    var carry := Carry(from, to, volume);
    var adjusted := AdjustSpec(layouts, vols, volume, from, to, channels);
    if adjusted.1.Fail? then Run(adjusted.0, Replay(tip, carry), carry, adjusted.1)
    else
      var actions := carry + AfterCarry(to, mixVolume, o);
      Run(adjusted.0, Replay(tip, actions), actions, Pass)
  }

  /** The first n serial transfers, stopping at the first error. */
  function Serial(layouts: map<string, Plate>, channels: int, vols: Volumes, tip: TipState,
                  wells: seq<WellRef>, volume: real, mixVolume: real, o: DilutionOptions, n: nat): (r: Run)
    requires Registered(layouts, vols)
    requires n < |wells|
    ensures r.vols.Keys == vols.Keys && forall q | q in vols :: r.vols[q].Keys == vols[q].Keys
    ensures r.outcome != Fail(TooFewWells)
    decreases n
  {
    if n == 0 then Run(vols, tip, [], Pass)
    else
      var done := Serial(layouts, channels, vols, tip, wells, volume, mixVolume, o, n - 1);
      if done.outcome.Fail? then done
      else Then(done, DilutionStep(layouts, channels, done.vols, done.tip, wells[n - 1], wells[n], volume, mixVolume, o))
  }

  /** The surplus of the last well goes to the trash, and the tip after it. */
  function Discard(layouts: map<string, Plate>, channels: int, vols: Volumes, tip: TipState,
                   last: WellRef, volume: real): (r: Run)
    requires Registered(layouts, vols)
    ensures r.vols.Keys == vols.Keys && forall q | q in vols :: r.vols[q].Keys == vols[q].Keys
    ensures r.outcome != Fail(TooFewWells)
    ensures r.outcome.Pass? ==> !r.tip.hasTip
    ensures r.vols == AdjustSpec(layouts, vols, volume, last, TrashWell, channels).0
    ensures r.outcome == AdjustSpec(layouts, vols, volume, last, TrashWell, channels).1
  {
    var draw := [Aspirate(volume, Well(last), 1.0)];
    var adjusted := AdjustSpec(layouts, vols, volume, last, TrashWell, channels);
    if adjusted.1.Fail? then Run(adjusted.0, Replay(tip, draw), draw, adjusted.1)
    else
      ReplayAppend(tip, draw, [DropTip]);
      ReplaySingle(Replay(tip, draw), DropTip);
      Run(adjusted.0, Replay(tip, draw + [DropTip]), draw + [DropTip], Pass)
  }

  /** serial_dilution as a run: a tip is picked up if none is mounted, the
      first well is mixed if asked, then the serial transfers and the
      discard follow. With fewer than two wells there is no last transfer to
      discard from, and the routine fails. */
  function SerialDilutionSpec(layouts: map<string, Plate>, channels: int, vols: Volumes, tip: TipState,
                              volume: real, mixVolume: real, wells: seq<WellRef>, o: DilutionOptions): (r: Run)
    requires Registered(layouts, vols)
    ensures Registered(layouts, r.vols)
    ensures r.outcome == Fail(TooFewWells) <==> |wells| < 2
    ensures r.outcome.Pass? ==> !r.tip.hasTip
  {
    var start := (if !tip.hasTip then [PickUpTip] else []) + PreMix(wells, mixVolume, o);
    var prepared := Run(vols, Replay(tip, start), start, Pass);
    if |wells| < 2 then prepared.(outcome := Fail(TooFewWells))
    else
      var done := Then(prepared, Serial(layouts, channels, vols, prepared.tip, wells, volume, mixVolume, o, |wells| - 1));
      if done.outcome.Fail? then done
      else Then(done, Discard(layouts, channels, done.vols, done.tip, wells[|wells| - 1], volume))
  }

  // ---------------------------------------------------------------------
  // Properties

  /** What well w receives at well x of plate q when volume is moved into it. */
  ghost function Share(layouts: map<string, Plate>, w: WellRef, channels: int, q: string, x: string, volume: real): real
  {
    Times(Weight(layouts, w, channels, q, x), volume)
  }

  /** Well x of plate q after volume has left well first and arrived in well last. */
  ghost function Relocated(layouts: map<string, Plate>, channels: int, vols: Volumes,
                           first: WellRef, last: WellRef, volume: real, q: string, x: string): real
    requires q in vols && x in vols[q]
  {
    vols[q][x] - Share(layouts, first, channels, q, x, volume) + Share(layouts, last, channels, q, x, volume)
  }

  /** The ledger side of the first n serial transfers alone. */
  ghost function Chain(layouts: map<string, Plate>, channels: int, vols: Volumes,
                       wells: seq<WellRef>, volume: real, n: nat): (r: Ledgered)
    requires Registered(layouts, vols)
    requires n < |wells|
    ensures r.vols.Keys == vols.Keys && forall q | q in vols :: r.vols[q].Keys == vols[q].Keys
    decreases n
  {
    if n == 0 then Ledgered(vols, Pass)
    else
      var done := Chain(layouts, channels, vols, wells, volume, n - 1);
      if done.outcome.Fail? then done
      else
        var a := AdjustSpec(layouts, done.vols, volume, wells[n - 1], wells[n], channels);
        Ledgered(a.0, a.1)
  }

  /** The serial transfers do to the ledger exactly what the chain of adjustments does. */
  lemma {:induction false} SerialIsChain(layouts: map<string, Plate>, channels: int, vols: Volumes, tip: TipState,
                                         wells: seq<WellRef>, volume: real, mixVolume: real, o: DilutionOptions, n: nat)
    requires Registered(layouts, vols)
    requires n < |wells|
    ensures Serial(layouts, channels, vols, tip, wells, volume, mixVolume, o, n).vols
         == Chain(layouts, channels, vols, wells, volume, n).vols
    ensures Serial(layouts, channels, vols, tip, wells, volume, mixVolume, o, n).outcome
         == Chain(layouts, channels, vols, wells, volume, n).outcome
    decreases n
  {
    if n > 0 {
      var m := n - 1;
      SerialIsChain(layouts, channels, vols, tip, wells, volume, mixVolume, o, m);
      SerialLedgerNext(layouts, channels, vols, tip, wells, volume, mixVolume, o, m);
      ChainNext(layouts, channels, vols, wells, volume, m);
    }
  }

  /** One more serial transfer, as the ledger sees it: after an error
      nothing changes, otherwise the ledger takes the adjustment from well m
      to well m + 1. */
  lemma SerialLedgerNext(layouts: map<string, Plate>, channels: int, vols: Volumes, tip: TipState,
                         wells: seq<WellRef>, volume: real, mixVolume: real, o: DilutionOptions, m: nat)
    requires Registered(layouts, vols)
    requires m + 1 < |wells|
    ensures var done := Serial(layouts, channels, vols, tip, wells, volume, mixVolume, o, m);
      var next := Serial(layouts, channels, vols, tip, wells, volume, mixVolume, o, m + 1);
      var a := AdjustSpec(layouts, done.vols, volume, wells[m], wells[m + 1], channels);
      (done.outcome.Fail? ==> next.vols == done.vols && next.outcome == done.outcome)
      && (!done.outcome.Fail? ==> next.vols == a.0 && next.outcome == a.1)
  {
  }

  /** One more link of the chain: after an error nothing changes, otherwise
      the ledger takes the adjustment from well m to well m + 1. */
  lemma ChainNext(layouts: map<string, Plate>, channels: int, vols: Volumes,
                  wells: seq<WellRef>, volume: real, m: nat)
    requires Registered(layouts, vols)
    requires m + 1 < |wells|
    ensures var done := Chain(layouts, channels, vols, wells, volume, m);
      var a := AdjustSpec(layouts, done.vols, volume, wells[m], wells[m + 1], channels);
      Chain(layouts, channels, vols, wells, volume, m + 1)
      == (if done.outcome.Fail? then done else Ledgered(a.0, a.1))
  {
  }

  /** The ledger after the first n transfers: the first well has lost, and
      the n-th well gained, one volume per unit of channel weight; every
      well in between got back what it gave. */
  lemma {:induction false} ChainTelescopes(layouts: map<string, Plate>, channels: int, vols: Volumes,
                                           wells: seq<WellRef>, volume: real, n: nat, q: string, x: string)
    requires Registered(layouts, vols)
    requires n < |wells|
    requires NoTrash(wells)
    requires q in vols && x in vols[q]
    requires Chain(layouts, channels, vols, wells, volume, n).outcome.Pass?
    ensures Chain(layouts, channels, vols, wells, volume, n).vols[q][x]
         == Relocated(layouts, channels, vols, wells[0], wells[n], volume, q, x)
    decreases n
  {
    if n > 0 {
      var m := n - 1;
      ChainNext(layouts, channels, vols, wells, volume, m);
      var done := Chain(layouts, channels, vols, wells, volume, m).vols;
      ChainTelescopes(layouts, channels, vols, wells, volume, m, q, x);
      TelescopeStep(layouts, channels, vols, done, volume, wells[0], wells[m], wells[m + 1], q, x);
    }
  }

  /** One more transfer of the chain: what well src had gained passes on to dst. */
  lemma TelescopeStep(layouts: map<string, Plate>, channels: int, vols: Volumes, done: Volumes, volume: real,
                      first: WellRef, src: WellRef, dst: WellRef, q: string, x: string)
    requires Registered(layouts, done)
    requires AdjustSpec(layouts, done, volume, src, dst, channels).1 == Pass
    requires !IsTrash(dst.plate)
    requires q in vols && x in vols[q] && q in done && x in done[q]
    requires done[q][x] == Relocated(layouts, channels, vols, first, src, volume, q, x)
    ensures AdjustSpec(layouts, done, volume, src, dst, channels).0[q][x]
         == Relocated(layouts, channels, vols, first, dst, volume, q, x)
  {
    AdjustAt(layouts, done, volume, src, dst, channels, q, x);
  }

  /** Net effect of a completed dilution on the ledger: the first well has
      lost one transfer volume per unit of channel weight, and every other
      tracked well is back where it started; mixing never enters the
      ledger. */
  lemma DilutionNetEffect(layouts: map<string, Plate>, channels: int, vols: Volumes, tip: TipState,
                          volume: real, mixVolume: real, wells: seq<WellRef>, o: DilutionOptions,
                          q: string, x: string)
    requires Registered(layouts, vols)
    requires NoTrash(wells)
    requires q in vols && x in vols[q]
    requires SerialDilutionSpec(layouts, channels, vols, tip, volume, mixVolume, wells, o).outcome.Pass?
    ensures SerialDilutionSpec(layouts, channels, vols, tip, volume, mixVolume, wells, o).vols[q][x]
         == vols[q][x] - Times(Weight(layouts, wells[0], channels, q, x), volume)
  {
    var start := (if !tip.hasTip then [PickUpTip] else []) + PreMix(wells, mixVolume, o);
    var n := |wells| - 1;
    var done := Serial(layouts, channels, vols, Replay(tip, start), wells, volume, mixVolume, o, n);
    SerialIsChain(layouts, channels, vols, Replay(tip, start), wells, volume, mixVolume, o, n);
    ChainTelescopes(layouts, channels, vols, wells, volume, n, q, x);
    TrashWellIsTrash();
    AdjustAt(layouts, done.vols, volume, wells[n], TrashWell, channels, q, x);
  }

  /** With a single-channel pipette, a completed dilution takes exactly the
      transfer volume out of the first well and leaves every other tracked
      well as it was. */
  lemma DilutionSingleChannel(layouts: map<string, Plate>, vols: Volumes, tip: TipState,
                              volume: real, mixVolume: real, wells: seq<WellRef>, o: DilutionOptions,
                              q: string, x: string)
    requires Registered(layouts, vols)
    requires NoTrash(wells)
    requires q in vols && x in vols[q]
    requires SerialDilutionSpec(layouts, 1, vols, tip, volume, mixVolume, wells, o).outcome.Pass?
    ensures SerialDilutionSpec(layouts, 1, vols, tip, volume, mixVolume, wells, o).vols[q][x]
         == vols[q][x] - (if q == wells[0].plate && x == wells[0].name then volume else 0.0)
  {
    DilutionNetEffect(layouts, 1, vols, tip, volume, mixVolume, wells, o, q, x);
    var start := (if !tip.hasTip then [PickUpTip] else []) + PreMix(wells, mixVolume, o);
    FirstStepPasses(layouts, 1, vols, Replay(tip, start), wells, volume, mixVolume, o, |wells| - 1);
    SingleChannelWeight(layouts, wells[0], q, x);
  }

  /** A completed run of n >= 1 transfers began with a successful
      adjustment out of the first well, so that well is a tracked one. */
  lemma {:induction false} FirstStepPasses(layouts: map<string, Plate>, channels: int, vols: Volumes, tip: TipState,
                                           wells: seq<WellRef>, volume: real, mixVolume: real, o: DilutionOptions,
                                           n: nat)
    requires Registered(layouts, vols)
    requires 1 <= n < |wells|
    requires Serial(layouts, channels, vols, tip, wells, volume, mixVolume, o, n).outcome.Pass?
    ensures wells[0].plate in layouts && |wells[0].name| >= 1
    decreases n
  {
    if n > 1 {
      FirstStepPasses(layouts, channels, vols, tip, wells, volume, mixVolume, o, n - 1);
    } else {
      assert AdjustSpec(layouts, vols, volume, wells[0], wells[1], channels).1 == Pass;
    }
  }

  /** The ledger side of a whole dilution: the chain of transfers, then
      the discard of the last well into the trash. */
  ghost function DilutionLedger(layouts: map<string, Plate>, channels: int, vols: Volumes,
                                wells: seq<WellRef>, volume: real): Ledgered
    requires Registered(layouts, vols)
  {
    if |wells| < 2 then Ledgered(vols, Fail(TooFewWells))
    else
      var done := Chain(layouts, channels, vols, wells, volume, |wells| - 1);
      if done.outcome.Fail? then done
      else
        var a := AdjustSpec(layouts, done.vols, volume, wells[|wells| - 1], TrashWell, channels);
        Ledgered(a.0, a.1)
  }

  /** What a dilution records in the ledger, and whether it completes, is
      the ledger side alone. */
  lemma DilutionIsLedger(layouts: map<string, Plate>, channels: int, vols: Volumes, tip: TipState,
                         volume: real, mixVolume: real, wells: seq<WellRef>, o: DilutionOptions)
    requires Registered(layouts, vols)
    ensures SerialDilutionSpec(layouts, channels, vols, tip, volume, mixVolume, wells, o).vols
         == DilutionLedger(layouts, channels, vols, wells, volume).vols
    ensures SerialDilutionSpec(layouts, channels, vols, tip, volume, mixVolume, wells, o).outcome
         == DilutionLedger(layouts, channels, vols, wells, volume).outcome
  {
    if |wells| >= 2 {
      var start := (if !tip.hasTip then [PickUpTip] else []) + PreMix(wells, mixVolume, o);
      var n := |wells| - 1;
      var s := Serial(layouts, channels, vols, Replay(tip, start), wells, volume, mixVolume, o, n);
      SerialIsChain(layouts, channels, vols, Replay(tip, start), wells, volume, mixVolume, o, n);
      if !s.outcome.Fail? {
        var d := Discard(layouts, channels, s.vols, s.tip, wells[n], volume);
        assert d.vols == AdjustSpec(layouts, s.vols, volume, wells[n], TrashWell, channels).0;
      }
    }
  }

  /** Mixing never touches the ledger: the volumes recorded by a dilution,
      and whether it completes, do not depend on the mix volume or on any
      mixing, blow-out or tip option. */
  lemma DilutionIgnoresMixing(layouts: map<string, Plate>, channels: int, vols: Volumes, tip: TipState,
                              volume: real, wells: seq<WellRef>,
                              mix1: real, o1: DilutionOptions, mix2: real, o2: DilutionOptions)
    requires Registered(layouts, vols)
    ensures SerialDilutionSpec(layouts, channels, vols, tip, volume, mix1, wells, o1).vols
         == SerialDilutionSpec(layouts, channels, vols, tip, volume, mix2, wells, o2).vols
    ensures SerialDilutionSpec(layouts, channels, vols, tip, volume, mix1, wells, o1).outcome
         == SerialDilutionSpec(layouts, channels, vols, tip, volume, mix2, wells, o2).outcome
  {
    DilutionIsLedger(layouts, channels, vols, tip, volume, mix1, wells, o1);
    DilutionIsLedger(layouts, channels, vols, tip, volume, mix2, wells, o2);
  }

  /** Once a transfer has failed, later transfers change nothing. */
  lemma {:induction false} SerialStop(layouts: map<string, Plate>, channels: int, vols: Volumes, tip: TipState,
                                      wells: seq<WellRef>, volume: real, mixVolume: real, o: DilutionOptions,
                                      k: nat, n: nat)
    requires Registered(layouts, vols)
    requires k <= n < |wells|
    requires Serial(layouts, channels, vols, tip, wells, volume, mixVolume, o, k).outcome.Fail?
    ensures Serial(layouts, channels, vols, tip, wells, volume, mixVolume, o, n)
         == Serial(layouts, channels, vols, tip, wells, volume, mixVolume, o, k)
    decreases n
  {
    if k < n {
      SerialStop(layouts, channels, vols, tip, wells, volume, mixVolume, o, k, n - 1);
    }
  }

  /** A completed run of m transfers extends by the transfer from well m to well m + 1. */
  lemma SerialNext(layouts: map<string, Plate>, channels: int, vols: Volumes, tip: TipState,
                   wells: seq<WellRef>, volume: real, mixVolume: real, o: DilutionOptions, m: nat)
    requires Registered(layouts, vols)
    requires m + 1 < |wells|
    requires Serial(layouts, channels, vols, tip, wells, volume, mixVolume, o, m).outcome.Pass?
    ensures var done := Serial(layouts, channels, vols, tip, wells, volume, mixVolume, o, m);
      Serial(layouts, channels, vols, tip, wells, volume, mixVolume, o, m + 1)
      == Then(done, DilutionStep(layouts, channels, done.vols, done.tip, wells[m], wells[m + 1], volume, mixVolume, o))
  {
  }

  // ---------------------------------------------------------------------
  // The routine

  /** n mix cycles at well w. */
  method MixAt(pip: Pipette, w: WellRef, mixVolume: real, rate: real, o: DilutionOptions, n: nat)
    requires pip.Valid()
    modifies pip
    ensures pip.Valid()
    ensures pip.log == old(pip.log) + Mixing(w, mixVolume, rate, o, n)
  {
    for j := 0 to n
      invariant pip.Valid()
      invariant pip.log == old(pip.log) + Mixing(w, mixVolume, rate, o, j)
    {
      pip.Perform(Aspirate(mixVolume, Well(w), rate));
      pip.Perform(Dispense(mixVolume, Some(Bottom(w, o.dispenseHeight, 0.0, 0.0)), FastRate));
      // brief delay for better mixing
      pip.Perform(Delay(MixDelay));
      assert pip.log == old(pip.log) + (Mixing(w, mixVolume, rate, o, j) + MixCycle(w, mixVolume, rate, o));
    }
  }

  /** Blow out above the bottom of w if asked, then touch the tip slowly. */
  method FinishAt(pip: Pipette, w: WellRef, o: DilutionOptions)
    requires pip.Valid()
    modifies pip
    ensures pip.Valid()
    ensures pip.log == old(pip.log) + Finishing(w, o)
  {
    if o.doBlowout {
      pip.Perform(BlowOut(Some(Bottom(w, o.blowoutHeight, 0.0, 0.0))));
    }
    // touch tip to knock off droplets, at the minimum speed
    pip.Perform(TouchTip(SlowTouchSpeed));
  }

  /** The mixing of the first well before the serial transfers, if asked. */
  method MixFirst(pip: Pipette, wells: seq<WellRef>, mixVolume: real, o: DilutionOptions)
    requires pip.Valid()
    modifies pip
    ensures pip.Valid()
    ensures pip.log == old(pip.log) + PreMix(wells, mixVolume, o)
  {
    if !o.mixBefore {
      assert pip.log == old(pip.log) + [];
    } else if wells == [] {
      // every read of the missing first well fails; only the touch needs none
      if o.mixSteps == 0 && !o.doBlowout {
        pip.Perform(TouchTip(SlowTouchSpeed));
      } else {
        assert pip.log == old(pip.log) + [];
      }
    } else {
      MixAt(pip, wells[0], mixVolume, 1.0, o, o.mixSteps);
      FinishAt(pip, wells[0], o);
    }
  }

  /** Mixing, blow-out and touch in the receiving well, then a fresh tip if
      one is asked for every transfer. */
  method AfterCarryAt(pip: Pipette, to: WellRef, mixVolume: real, o: DilutionOptions)
    requires pip.Valid()
    modifies pip
    ensures pip.Valid()
    ensures pip.log == old(pip.log) + AfterCarry(to, mixVolume, o)
  {
    MixAt(pip, to, mixVolume, FastRate, o, o.mixSteps);
    FinishAt(pip, to, o);
    if o.alwaysNewTip {
      pip.Perform(DropTip);
      pip.Perform(PickUpTip);
    }
  }

  /** One serial transfer: carry the volume from one well to the next,
      record it, then mix in the receiving well. */
  method DilutionStepAt(ledger: VolumeLedger, pip: Pipette, from: WellRef, to: WellRef,
                        volume: real, mixVolume: real, o: DilutionOptions)
    returns (r: Outcome)
    requires ledger.Valid() && pip.Valid()
    modifies ledger, pip
    ensures ledger.Valid() && pip.Valid()
    ensures var R := DilutionStep(ledger.layouts, pip.channels, old(ledger.volumes), old(pip.State()),
                                  from, to, volume, mixVolume, o);
      Made(ledger, pip, old(pip.log), R) && r == R.outcome
  {
    ghost var log0, tip0 := pip.log, pip.State();
    CarryAt(pip, from, to, volume);
    r := ledger.Adjust(volume, Well(from), Well(to), pip.channels);
    if r.Fail? {
      StateFromLog(pip, log0, tip0, Carry(from, to, volume));
      return;
    }
    AfterCarryAt(pip, to, mixVolume, o);
    ghost var actions := Carry(from, to, volume) + AfterCarry(to, mixVolume, o);
    LogAppend(log0, Carry(from, to, volume), AfterCarry(to, mixVolume, o));
    StateFromLog(pip, log0, tip0, actions);
  }

  /** Draw the volume from one well and push it into the next. */
  method CarryAt(pip: Pipette, from: WellRef, to: WellRef, volume: real)
    requires pip.Valid()
    modifies pip
    ensures pip.Valid()
    ensures pip.log == old(pip.log) + Carry(from, to, volume)
  {
    pip.Perform(Aspirate(volume, Well(from), 1.0));
    pip.Perform(Dispense(volume, Some(Well(to)), FastRate));
  }

  /** Discard the surplus of the last well into the trash, then drop the tip there. */
  method DiscardAt(ledger: VolumeLedger, pip: Pipette, last: WellRef, volume: real)
    returns (r: Outcome)
    requires ledger.Valid() && pip.Valid()
    modifies ledger, pip
    ensures ledger.Valid() && pip.Valid()
    ensures var R := Discard(ledger.layouts, pip.channels, old(ledger.volumes), old(pip.State()), last, volume);
      Made(ledger, pip, old(pip.log), R) && r == R.outcome
  {
    ghost var log0, tip0 := pip.log, pip.State();
    ghost var draw := [Aspirate(volume, Well(last), 1.0)];
    pip.Perform(Aspirate(volume, Well(last), 1.0));
    ReplaySingle(tip0, Aspirate(volume, Well(last), 1.0));
    assert pip.log == log0 + draw && pip.State() == Replay(tip0, draw);
    r := ledger.Adjust(volume, Well(last), Well(TrashWell), pip.channels);
    if r.Fail? {
      return;
    }
    // drop tip in the trash
    pip.Perform(DropTip);
    assert pip.log == log0 + (draw + [DropTip]);
    StateFromLog(pip, log0, tip0, draw + [DropTip]);
  }

  /** serial_dilution: the routine, step by step, as the run it specifies. */
  method SerialDilution(ledger: VolumeLedger, pip: Pipette, volume: real, mixVolume: real,
                        wells: seq<WellRef>, o: DilutionOptions)
    returns (r: Outcome)
    requires ledger.Valid() && pip.Valid()
    modifies ledger, pip
    ensures ledger.Valid() && pip.Valid()
    ensures var R := SerialDilutionSpec(ledger.layouts, pip.channels, old(ledger.volumes), old(pip.State()),
                                        volume, mixVolume, wells, o);
      Made(ledger, pip, old(pip.log), R) && r == R.outcome
  {
    ghost var layouts, channels := ledger.layouts, pip.channels;
    ghost var vols0, tip0, log0 := ledger.volumes, pip.State(), pip.log;
    // pick up a tip if the pipette doesn't have one
    PickUpIfNeeded(pip);
    MixFirst(pip, wells, mixVolume, o);
    ghost var start := (if !tip0.hasTip then [PickUpTip] else []) + PreMix(wells, mixVolume, o);
    assert pip.log == log0 + start;
    StateFromLog(pip, log0, tip0, start);
    if |wells| < 2 {
      // no serial transfer, and the discard names a loop index that was never bound
      assert pip.log == log0 + start + [];
      return Fail(TooFewWells);
    }
    r := SerialTransfers(ledger, pip, volume, mixVolume, wells, o, |wells| - 1);
    ghost var prepared := Run(vols0, Replay(tip0, start), start, Pass);
    ghost var serial := Serial(layouts, channels, vols0, prepared.tip, wells, volume, mixVolume, o, |wells| - 1);
    MadeThen(ledger, pip, log0, prepared, serial);
    if r.Fail? {
      return;
    }
    // discard extra volume from the final wells
    ghost var done := Then(prepared, serial);
    r := DiscardAt(ledger, pip, wells[|wells| - 1], volume);
    MadeThen(ledger, pip, log0, done,
             Discard(layouts, channels, done.vols, done.tip, wells[|wells| - 1], volume));
  }

  /** The first n serial transfers, from each well to the next, stopping at the first error. */
  method SerialTransfers(ledger: VolumeLedger, pip: Pipette, volume: real, mixVolume: real,
                         wells: seq<WellRef>, o: DilutionOptions, n: nat)
    returns (r: Outcome)
    requires ledger.Valid() && pip.Valid()
    requires n < |wells|
    modifies ledger, pip
    ensures ledger.Valid() && pip.Valid()
    ensures var R := Serial(ledger.layouts, pip.channels, old(ledger.volumes), old(pip.State()),
                            wells, volume, mixVolume, o, n);
      Made(ledger, pip, old(pip.log), R) && r == R.outcome
  {
    ghost var layouts, channels := ledger.layouts, pip.channels;
    ghost var vols0, tip0, log0 := ledger.volumes, pip.State(), pip.log;
    r := Pass;
    assert Made(ledger, pip, log0, Serial(layouts, channels, vols0, tip0, wells, volume, mixVolume, o, 0));
    for i := 0 to n
      invariant ledger.Valid() && pip.Valid()
      invariant r == Pass
      invariant Made(ledger, pip, log0, Serial(layouts, channels, vols0, tip0, wells, volume, mixVolume, o, i))
      invariant Serial(layouts, channels, vols0, tip0, wells, volume, mixVolume, o, i).outcome == Pass
    {
      ghost var done := Serial(layouts, channels, vols0, tip0, wells, volume, mixVolume, o, i);
      r := DilutionStepAt(ledger, pip, wells[i], wells[i + 1], volume, mixVolume, o);
      MadeThen(ledger, pip, log0, done,
               DilutionStep(layouts, channels, done.vols, done.tip, wells[i], wells[i + 1], volume, mixVolume, o));
      SerialNext(layouts, channels, vols0, tip0, wells, volume, mixVolume, o, i);
      if r.Fail? {
        SerialStop(layouts, channels, vols0, tip0, wells, volume, mixVolume, o, i + 1, n);
        return;
      }
    }
  }
}
