/** The volume ledger (all_volumes): for every registered plate, the volume in
    microlitres of each of its wells. adjust_well_volume is its one conservation
    primitive: it debits the wells the pipette draws from and credits the wells
    it dispenses into, with the fan-out of an 8-channel pipette derived from
    the plate's row count; the fixed trash is a sink that is never credited. */
module Ledger {
  import opened Outcomes
  import opened WellNames
  import opened Labware

  /** Plate label -> well name -> volume. */
  type Volumes = map<string, map<string, real>>

  /** A freshly reset plate: every well holds nothing. */
  function ZeroVolumes(p: Plate): map<string, real>
    requires p.rows <= 26
  {
    map w | w in PlateWells(p) :: 0.0
  }

  /** The ledger has one volume map per registered plate. */
  predicate Registered(layouts: map<string, Plate>, vols: Volumes)
  {
    vols.Keys == layouts.Keys
  }

  /** The ledger tracks exactly the registered plates, each with exactly its
      own wells, as reset_well_volumes builds it. */
  ghost predicate Consistent(layouts: map<string, Plate>, vols: Volumes)
  {
    && Registered(layouts, vols)
    && forall k | k in layouts ::
         layouts[k].rows <= 26 && vols[k].Keys == PlateWells(layouts[k])
  }

  /** The ledger right after reset_well_volumes: every well of every
      registered plate holds nothing. */
  function ZeroLedger(layouts: map<string, Plate>): (r: Volumes)
    requires forall k | k in layouts :: layouts[k].rows <= 26
    ensures Consistent(layouts, r)
    ensures forall k, w | k in r && w in r[k] :: r[k][w] == 0.0
  {
    map k | k in layouts :: ZeroVolumes(layouts[k])
  }

  /** Resetting a consistent ledger keeps every plate and every well name
      and empties every well. */
  lemma ResetKeepsWells(layouts: map<string, Plate>, vols: Volumes)
    requires Consistent(layouts, vols)
    ensures ZeroLedger(layouts).Keys == vols.Keys
    ensures forall k | k in vols :: ZeroLedger(layouts)[k].Keys == vols[k].Keys
    ensures forall k, w | k in vols && w in vols[k] :: ZeroLedger(layouts)[k][w] == 0.0
  {
  }

  /** The wells that the channels of a pipette address when it is sent to one
      well, and how many channels share each of them. */
  datatype FanOut = FanOut(wells: seq<string>, multiplier: nat)

  /** The start rows an 8-channel pipette may use on a plate. */
  predicate StartRowAllowed(p: Plate, name: string)
    requires |name| >= 1
  {
    && (p.rows == 8 ==> name[0] == 'A')
    && (p.rows == 16 ==> name[0] == 'A' || name[0] == 'B')
  }

  /** The fan-out of a 1- or 8-channel pipette at a well: a single channel
      touches the well itself; eight channels on a 1-row plate all share the
      one well; on an 8-row plate they cover the well's column; on a 16-row
      plate they cover every other row of the column from the start row. No
      fan-out exists for other row counts. */
  function ChannelWells(p: Plate, name: string, channels: int): (r: Option<FanOut>)
    requires |name| >= 1
    ensures channels == 1 ==> r == Some(FanOut([name], 1))
    ensures r.Some? && (channels == 1 || channels == 8) ==>
      || (r.value.multiplier == 1 && |r.value.wells| == channels)
      || (r.value.multiplier == channels && |r.value.wells| == 1)
    ensures r.None? <==> channels != 1 && p.rows !in {1, 8, 16}
  {
    if channels == 1 then Some(FanOut([name], 1))
    else if p.rows == 1 then Some(FanOut([name], 8))
    else if p.rows == 8 then
      Some(FanOut(seq(8, k requires 0 <= k < 8 => [RowLetter(k)] + name[1..]), 1))
    else if p.rows == 16 then
      var start := if name[0] == 'A' then 0 else 1;
      Some(FanOut(seq(8, k requires 0 <= k < 8 => [RowLetter(start + 2 * k)] + name[1..]), 1))
    else None
  }

  /** Every well of a fan-out belongs to the plate of the well it starts from. */
  lemma ChannelWellsInPlate(p: Plate, name: string, channels: int)
    requires p.rows <= 26 && name in PlateWells(p)
    requires channels != 1 ==> StartRowAllowed(p, name)
    requires ChannelWells(p, name, channels).Some?
    ensures forall i | 0 <= i < |ChannelWells(p, name, channels).value.wells| ::
      ChannelWells(p, name, channels).value.wells[i] in PlateWells(p)
  {
    if channels != 1 && (p.rows == 8 || p.rows == 16) {
      var c := ColumnOf(p, name);
      FanOutInPlate(p, name, channels, c);
    }
  }

  /** A well of a plate names its column after the row letter. */
  lemma ColumnOf(p: Plate, name: string) returns (c: nat)
    requires p.rows <= 26 && name in PlateWells(p)
    ensures c < p.columns && |name| >= 1 && name[1..] == NatToString(c + 1)
  {
    PlateWellShape(p, name);
    var r: nat :| r < p.rows && exists c': nat :: c' < p.columns && name == WellName(r, c');
    c :| c < p.columns && name == WellName(r, c);
    assert name[1..] == NatToString(c + 1);
  }

  /** The eight wells of an 8- or 16-row fan-out from a well of column c
      all belong to the plate. */
  lemma FanOutInPlate(p: Plate, name: string, channels: int, c: nat)
    requires p.rows == 8 || p.rows == 16
    requires c < p.columns && |name| >= 1 && name[1..] == NatToString(c + 1)
    requires channels != 1
    ensures forall i | 0 <= i < |ChannelWells(p, name, channels).value.wells| ::
      ChannelWells(p, name, channels).value.wells[i] in PlateWells(p)
  {
    var f := ChannelWells(p, name, channels).value;
    if p.rows == 8 {
      forall i | 0 <= i < |f.wells| ensures f.wells[i] in PlateWells(p) {
        assert f.wells[i] == WellName(i, c);
        WellNameInPlate(p, i, c);
      }
    } else {
      var start := if name[0] == 'A' then 0 else 1;
      forall i | 0 <= i < |f.wells| ensures f.wells[i] in PlateWells(p) {
        assert f.wells[i] == WellName(start + 2 * i, c);
        WellNameInPlate(p, start + 2 * i, c);
      }
    }
  }

  /** One well of one plate changes by delta. */
  function Bump(m: map<string, real>, well: string, delta: real): map<string, real>
    requires well in m
  {
    m[well := m[well] + delta]
  }


  /** Each listed well of one plate changes by delta, in list order (a `-=`
      or `+=` loop over the wells). */
  function Shift(m: map<string, real>, wells: seq<string>, delta: real): (r: map<string, real>)
    requires forall i | 0 <= i < |wells| :: wells[i] in m
    ensures r.Keys == m.Keys
    decreases |wells|
  {
    if wells == [] then m
    else Bump(Shift(m, wells[..|wells| - 1], delta), wells[|wells| - 1], delta)
  }


  /** The number of times a well occurs in a list. */
  function Count(wells: seq<string>, x: string): nat
    decreases |wells|
  {
    if wells == [] then 0 else Count(wells[..|wells| - 1], x) + (if wells[|wells| - 1] == x then 1 else 0)
  }

  /** In a list without repetitions a well occurs once or not at all. */
  lemma {:induction false} CountDistinct(wells: seq<string>, x: string)
    requires forall i, j | 0 <= i < j < |wells| :: wells[i] != wells[j]
    ensures Count(wells, x) == if x in wells then 1 else 0
    decreases |wells|
  {
    if wells != [] {
      var init := wells[..|wells| - 1];
      CountDistinct(init, x);
      assert x in wells <==> x in init || x == wells[|wells| - 1];
    }
  }

  /** n times d, as n copies of d added up. */
  function Times(n: nat, d: real): real
    decreases n
  {
    if n == 0 then 0.0 else Times(n - 1, d) + d
  }

  lemma {:induction false} TimesIsProduct(n: nat, d: real)
    ensures Times(n, d) == d * n as real
    decreases n
  {
    if n > 0 {
      TimesIsProduct(n - 1, d);
      assert d * (n - 1) as real + d == d * n as real;
    }
  }

  lemma {:induction false} TimesAdd(a: nat, b: nat, d: real)
    ensures Times(a + b, d) == Times(a, d) + Times(b, d)
    decreases b
  {
    if b > 0 { TimesAdd(a, b - 1, d); }
  }

  lemma {:induction false} TimesTimes(a: nat, b: nat, d: real)
    ensures Times(a, Times(b, d)) == Times(a * b, d)
    decreases a
  {
    if a > 0 {
      TimesTimes(a - 1, b, d);
      TimesAdd((a - 1) * b, b, d);
      assert (a - 1) * b + b == a * b;
    }
  }

  lemma {:induction false} TimesNegate(n: nat, d: real)
    ensures Times(n, -d) == -Times(n, d)
    decreases n
  {
    if n > 0 { TimesNegate(n - 1, d); }
  }

  /** Shift adds delta to a well once per occurrence and leaves all others alone. */
  lemma {:induction false} ShiftAt(m: map<string, real>, wells: seq<string>, delta: real, x: string)
    requires forall i | 0 <= i < |wells| :: wells[i] in m
    requires x in m
    ensures Shift(m, wells, delta)[x] == m[x] + Times(Count(wells, x), delta)
    decreases |wells|
  {
    if wells != [] {
      ShiftAt(m, wells[..|wells| - 1], delta, x);
    }
  }


  /** What a `-=` or `+=` loop over the fan-out of w needs: the plate is
      registered, the fan-out exists and each of its wells is tracked. */
  predicate Movable(layouts: map<string, Plate>, vols: Volumes, w: WellRef, channels: int)
  {
    && w.plate in vols && w.plate in layouts && |w.name| >= 1
    && ChannelWells(layouts[w.plate], w.name, channels).Some?
    && forall i | 0 <= i < |ChannelWells(layouts[w.plate], w.name, channels).value.wells| ::
         ChannelWells(layouts[w.plate], w.name, channels).value.wells[i] in vols[w.plate]
  }

  /** In a consistent ledger every well of a plate can be moved through, once
      its start row is allowed and its plate has a fan-out. */
  lemma ConsistentMovable(layouts: map<string, Plate>, vols: Volumes, w: WellRef, channels: int)
    requires Consistent(layouts, vols)
    requires w.plate in layouts && w.name in PlateWells(layouts[w.plate])
    requires channels != 1 ==> StartRowAllowed(layouts[w.plate], w.name)
    requires ChannelWells(layouts[w.plate], w.name, channels).Some?
    ensures Movable(layouts, vols, w, channels)
  {
    ChannelWellsInPlate(layouts[w.plate], w.name, channels);
  }

  /** Only the well names of the plate matter to Movable. */
  lemma MovableKeys(layouts: map<string, Plate>, vols: Volumes, vols': Volumes, w: WellRef, channels: int)
    requires Movable(layouts, vols, w, channels)
    requires w.plate in vols' && vols'[w.plate].Keys == vols[w.plate].Keys
    ensures Movable(layouts, vols', w, channels)
  {
    var f := ChannelWells(layouts[w.plate], w.name, channels).value;
    forall i | 0 <= i < |f.wells| ensures f.wells[i] in vols'[w.plate] {
      assert f.wells[i] in vols[w.plate].Keys;
    }
  }

  /** A change that keeps every plate's well names keeps the ledger consistent. */
  lemma ConsistentKeys(layouts: map<string, Plate>, vols: Volumes, vols': Volumes)
    requires Consistent(layouts, vols)
    requires vols'.Keys == vols.Keys && forall q | q in vols :: vols'[q].Keys == vols[q].Keys
    ensures Consistent(layouts, vols')
  {
  }

  /** Every well in the fan-out of w changes by delta per channel sharing it. */
  function Move(layouts: map<string, Plate>, vols: Volumes, w: WellRef, channels: int, delta: real): (r: Volumes)
    requires Movable(layouts, vols, w, channels)
    ensures r.Keys == vols.Keys && forall q | q in vols :: r[q].Keys == vols[q].Keys
  {
    var f := ChannelWells(layouts[w.plate], w.name, channels).value;
    vols[w.plate := Shift(vols[w.plate], f.wells, Times(f.multiplier, delta))]
  }

  /** The first error adjust_well_volume raises before it changes anything.
      The source plate must be registered and the source name non-empty
      (its first character is read), then the same for the destination
      unless it is the trash; the channel count must be 1 or 8; an 8-channel
      transfer must start at an allowed row at the source and then at the
      destination; the source plate must have a fan-out. Finally every well
      of both fan-outs must be tracked. */
  function AdjustError(layouts: map<string, Plate>, vols: Volumes,
                       source: WellRef, destination: WellRef, channels: int): (e: Option<Error>)
    requires Registered(layouts, vols)
    ensures e.None? <==>
      && (channels == 1 || channels == 8)
      && Movable(layouts, vols, source, channels)
      && (channels == 8 ==> StartRowAllowed(layouts[source.plate], source.name))
      && (!IsTrash(destination.plate) ==>
            && destination.plate in vols && |destination.name| >= 1
            && (channels == 8 ==> StartRowAllowed(layouts[destination.plate], destination.name))
            && (ChannelWells(layouts[destination.plate], destination.name, channels).Some? ==>
                  Movable(layouts, vols, destination, channels)))
  {
    var notTrash := !IsTrash(destination.plate);
    if source.plate !in vols then Some(UnknownPlate)
    else if |source.name| == 0 then Some(InvalidWellName)
    else if notTrash && destination.plate !in vols then Some(UnknownPlate)
    else if notTrash && |destination.name| == 0 then Some(InvalidWellName)
    else if channels != 1 && channels != 8 then Some(WrongChannelCount)
    else if channels == 8 && !StartRowAllowed(layouts[source.plate], source.name) then
      Some(InvalidMultichannelAlignment)
    else if notTrash && channels == 8 && !StartRowAllowed(layouts[destination.plate], destination.name) then
      Some(InvalidMultichannelAlignment)
    else if ChannelWells(layouts[source.plate], source.name, channels).None? then
      Some(UnsupportedPlateGeometry)
    else if !Movable(layouts, vols, source, channels) then Some(UnknownWell)
    else if notTrash && ChannelWells(layouts[destination.plate], destination.name, channels).Some?
            && !Movable(layouts, vols, destination, channels) then
      Some(UnknownWell)
    else None
  }

  /** adjust_well_volume as a function of the ledger: the volumes afterwards
      and whether an error was raised. After the checks of AdjustError the
      source wells are debited; only then is a destination plate without a
      fan-out detected, so that error leaves the debit in place. */
  function AdjustSpec(layouts: map<string, Plate>, vols: Volumes, volume: real,
                      source: WellRef, destination: WellRef, channels: int): (r: (Volumes, Outcome))
    requires Registered(layouts, vols)
    ensures r.0.Keys == vols.Keys && forall q | q in vols :: r.0[q].Keys == vols[q].Keys
    ensures AdjustError(layouts, vols, source, destination, channels).Some? ==>
      r.0 == vols && r.1 == Fail(AdjustError(layouts, vols, source, destination, channels).value)
    ensures r.1.Fail? && r.0 != vols ==> r.1.error == UnsupportedPlateGeometry && !IsTrash(destination.plate)
  {
    match AdjustError(layouts, vols, source, destination, channels)
    case Some(e) => (vols, Fail(e))
    case None =>
      var debited := Move(layouts, vols, source, channels, -volume);
      if IsTrash(destination.plate) then (debited, Pass)
      else if ChannelWells(layouts[destination.plate], destination.name, channels).None? then
        (debited, Fail(UnsupportedPlateGeometry))
      else
        MovableKeys(layouts, vols, debited, destination, channels);
        (Move(layouts, debited, destination, channels, volume), Pass)
  }

  /** The successful path of AdjustSpec, step by step: a debit of the source
      well(s), then (unless the destination is the trash) a credit of the
      destination well(s). */
  lemma AdjustSpecSteps(layouts: map<string, Plate>, vols: Volumes, volume: real,
                        source: WellRef, destination: WellRef, channels: int)
    requires Registered(layouts, vols)
    requires AdjustError(layouts, vols, source, destination, channels).None?
    ensures Movable(layouts, vols, source, channels)
    ensures IsTrash(destination.plate) ==>
      && AdjustSpec(layouts, vols, volume, source, destination, channels).0
           == Move(layouts, vols, source, channels, -volume)
      && AdjustSpec(layouts, vols, volume, source, destination, channels).1 == Pass
    ensures !IsTrash(destination.plate) ==>
      && destination.plate in layouts
      && |destination.name| >= 1
      && (ChannelWells(layouts[destination.plate], destination.name, channels).None? ==>
            && AdjustSpec(layouts, vols, volume, source, destination, channels).0
                 == Move(layouts, vols, source, channels, -volume)
            && AdjustSpec(layouts, vols, volume, source, destination, channels).1
                 == Fail(UnsupportedPlateGeometry))
      && (ChannelWells(layouts[destination.plate], destination.name, channels).Some? ==>
            && Movable(layouts, Move(layouts, vols, source, channels, -volume), destination, channels)
            && AdjustSpec(layouts, vols, volume, source, destination, channels).0
                 == Move(layouts, Move(layouts, vols, source, channels, -volume), destination, channels, volume)
            && AdjustSpec(layouts, vols, volume, source, destination, channels).1 == Pass)
  {
    if !IsTrash(destination.plate) && ChannelWells(layouts[destination.plate], destination.name, channels).Some? {
      MovableKeys(layouts, vols, Move(layouts, vols, source, channels, -volume), destination, channels);
    }
  }

  /** AdjustSpec once the source debit is known: the trash destination and
      the late geometry failure stop there. */
  lemma AdjustSpecAfterDebit(layouts: map<string, Plate>, vols: Volumes, volume: real,
                             source: WellRef, destination: WellRef, channels: int, debited: Volumes)
    requires Registered(layouts, vols)
    requires AdjustError(layouts, vols, source, destination, channels).None?
    requires Movable(layouts, vols, source, channels)
    requires debited == Move(layouts, vols, source, channels, -volume)
    ensures IsTrash(destination.plate) ==>
      && AdjustSpec(layouts, vols, volume, source, destination, channels).0 == debited
      && AdjustSpec(layouts, vols, volume, source, destination, channels).1 == Pass
    ensures !IsTrash(destination.plate) ==>
      && destination.plate in layouts && |destination.name| >= 1
      && (ChannelWells(layouts[destination.plate], destination.name, channels).None? ==>
            && AdjustSpec(layouts, vols, volume, source, destination, channels).0 == debited
            && AdjustSpec(layouts, vols, volume, source, destination, channels).1 == Fail(UnsupportedPlateGeometry))
      && (ChannelWells(layouts[destination.plate], destination.name, channels).Some? ==>
            Movable(layouts, debited, destination, channels))
  {
    AdjustSpecSteps(layouts, vols, volume, source, destination, channels);
  }

  /** AdjustSpec once the destination credit is known too. */
  lemma AdjustSpecAfterCredit(layouts: map<string, Plate>, vols: Volumes, volume: real,
                              source: WellRef, destination: WellRef, channels: int,
                              debited: Volumes, credited: Volumes)
    requires Registered(layouts, vols)
    requires AdjustError(layouts, vols, source, destination, channels).None?
    requires Movable(layouts, vols, source, channels)
    requires debited == Move(layouts, vols, source, channels, -volume)
    requires !IsTrash(destination.plate) && destination.plate in layouts && |destination.name| >= 1
    requires Movable(layouts, debited, destination, channels)
    requires credited == Move(layouts, debited, destination, channels, volume)
    ensures AdjustSpec(layouts, vols, volume, source, destination, channels).0 == credited
    ensures AdjustSpec(layouts, vols, volume, source, destination, channels).1 == Pass
  {
    AdjustSpecSteps(layouts, vols, volume, source, destination, channels);
  }

  /** A consistent ledger stays consistent: an adjustment never adds or drops
      a plate or a well. */
  lemma AdjustKeepsConsistent(layouts: map<string, Plate>, vols: Volumes, volume: real,
                              source: WellRef, destination: WellRef, channels: int)
    requires Consistent(layouts, vols)
    ensures Consistent(layouts, AdjustSpec(layouts, vols, volume, source, destination, channels).0)
  {
    ConsistentKeys(layouts, vols, AdjustSpec(layouts, vols, volume, source, destination, channels).0);
  }

  /** When the ledger is consistent and both wells are wells of their plates
      (as the labware's own well objects always are), no well is ever
      reported missing and no name is empty. */
  lemma AdjustPlateWells(layouts: map<string, Plate>, vols: Volumes, volume: real,
                         source: WellRef, destination: WellRef, channels: int)
    requires Consistent(layouts, vols)
    requires source.plate in layouts && source.name in PlateWells(layouts[source.plate])
    requires !IsTrash(destination.plate) ==>
      destination.plate in layouts && destination.name in PlateWells(layouts[destination.plate])
    ensures AdjustSpec(layouts, vols, volume, source, destination, channels).1 != Fail(UnknownWell)
    ensures AdjustSpec(layouts, vols, volume, source, destination, channels).1 != Fail(InvalidWellName)
  {
    var src, dst := source, destination;
    if channels == 1 || channels == 8 {
      if (channels == 8 ==> StartRowAllowed(layouts[src.plate], src.name))
         && ChannelWells(layouts[src.plate], src.name, channels).Some? {
        ConsistentMovable(layouts, vols, src, channels);
      }
      if !IsTrash(dst.plate) && (channels == 8 ==> StartRowAllowed(layouts[dst.plate], dst.name))
         && ChannelWells(layouts[dst.plate], dst.name, channels).Some? {
        ConsistentMovable(layouts, vols, dst, channels);
      }
    }
  }

  /** How many channel-loads of liquid an adjustment through well w moves at
      well x of plate q: the fan-out multiplier times the number of times x
      is among the fan-out wells. */
  ghost function Weight(layouts: map<string, Plate>, w: WellRef, channels: int, q: string, x: string): nat
  {
    if w.plate == q && w.plate in layouts && |w.name| >= 1 then
      match ChannelWells(layouts[w.plate], w.name, channels)
      case Some(f) => Count(f.wells, x) * f.multiplier
      case None => 0
    else 0
  }

  /** A single channel moves liquid at its own well only. */
  lemma SingleChannelWeight(layouts: map<string, Plate>, w: WellRef, q: string, x: string)
    requires w.plate in layouts && |w.name| >= 1
    ensures Weight(layouts, w, 1, q, x) == if q == w.plate && x == w.name then 1 else 0
  {
    var wells := [w.name];
    assert wells[..0] == [];
    assert Count(wells, x) == if x == w.name then 1 else 0;
  }

  /** The wells of column c that an 8-channel pipette started at row s
      covers: every row of an 8-row plate, every other row of a 16-row plate. */
  function ColumnWells(p: Plate, c: nat, s: nat): set<string>
    requires p.rows <= 26
  {
    set r: nat | r < p.rows && (p.rows == 8 || r % 2 == s) :: WellName(r, c)
  }

  /** On a 1-row plate the one well takes all eight channel-loads. */
  lemma EightChannelWeightOneRow(layouts: map<string, Plate>, w: WellRef, x: string)
    requires w.plate in layouts && layouts[w.plate].rows == 1 && |w.name| >= 1
    ensures Weight(layouts, w, 8, w.plate, x) == if x == w.name then 8 else 0
  {
    var f := ChannelWells(layouts[w.plate], w.name, 8).value;
    assert f.wells[..0] == [];
    assert Count(f.wells, x) == if x == w.name then 1 else 0;
  }

  /** On an 8-row plate started at row A each well of the column takes one load. */
  lemma EightChannelWeightEightRows(layouts: map<string, Plate>, w: WellRef, c: nat, x: string)
    requires w.plate in layouts && layouts[w.plate].rows == 8 && w.name == WellName(0, c)
    ensures Weight(layouts, w, 8, w.plate, x) == if x in ColumnWells(layouts[w.plate], c, 0) then 1 else 0
  {
    var p := layouts[w.plate];
    var f := ChannelWells(p, w.name, 8).value;
    assert w.name[1..] == NatToString(c + 1);
    assert forall i | 0 <= i < 8 :: f.wells[i] == WellName(i, c);
    forall i, j | 0 <= i < j < 8 ensures f.wells[i] != f.wells[j] {
      assert f.wells[i][0] == RowLetter(i) && f.wells[j][0] == RowLetter(j);
    }
    CountDistinct(f.wells, x);
    var col := ColumnWells(p, c, 0);
    if x in col {
      var r: nat :| r < p.rows && x == WellName(r, c);
      assert x == f.wells[r];
    }
    if x in f.wells {
      var i :| 0 <= i < 8 && f.wells[i] == x;
      assert x in col;
    }
  }

  /** Row r has parity s exactly when it is s plus twice its half. */
  lemma RowParity(r: nat, s: nat)
    requires s < 2
    ensures r % 2 == s <==> r == s + 2 * (r / 2)
  {
  }

  /** Rows s, s + 2, ..., s + 14 of column c. */
  function EveryOtherRow(s: nat, c: nat): (wells: seq<string>)
    requires s < 2
    ensures |wells| == 8
  {
    seq(8, i requires 0 <= i < 8 => WellName(s + 2 * i, c))
  }

  lemma EveryOtherRowDistinct(s: nat, c: nat)
    requires s < 2
    ensures forall i, j | 0 <= i < j < 8 :: EveryOtherRow(s, c)[i] != EveryOtherRow(s, c)[j]
  {
    var wells := EveryOtherRow(s, c);
    forall i, j | 0 <= i < j < 8 ensures wells[i] != wells[j] {
      assert wells[i][0] == RowLetter(s + 2 * i) && wells[j][0] == RowLetter(s + 2 * j);
    }
  }

  lemma EveryOtherRowMembers(p: Plate, s: nat, c: nat, x: string)
    requires p.rows == 16 && s < 2
    ensures x in EveryOtherRow(s, c) <==> x in ColumnWells(p, c, s)
  {
    var wells := EveryOtherRow(s, c);
    if x in ColumnWells(p, c, s) {
      var r: nat :| r < p.rows && r % 2 == s && x == WellName(r, c);
      var i := r / 2;
      RowParity(r, s);
      assert x == wells[i];
    }
    if x in wells {
      var i :| 0 <= i < 8 && wells[i] == x;
      var r: nat := s + 2 * i;
      RowParity(r, s);
      assert x == WellName(r, c);
    }
  }

  /** On a 16-row plate started at row A (s = 0) or B (s = 1) the eight wells
      s, s + 2, ..., s + 14 of the column take one load each. */
  lemma EightChannelWeightSixteenRows(layouts: map<string, Plate>, w: WellRef, s: nat, c: nat, x: string)
    requires w.plate in layouts && layouts[w.plate].rows == 16 && s < 2 && w.name == WellName(s, c)
    ensures Weight(layouts, w, 8, w.plate, x) == if x in ColumnWells(layouts[w.plate], c, s) then 1 else 0
  {
    var p := layouts[w.plate];
    var f := ChannelWells(p, w.name, 8).value;
    assert w.name[0] == RowLetter(s) && w.name[1..] == NatToString(c + 1);
    assert f.wells == EveryOtherRow(s, c);
    EveryOtherRowDistinct(s, c);
    CountDistinct(f.wells, x);
    EveryOtherRowMembers(p, s, c, x);
  }

  /** The 8-channel fan-out: on a 1-row plate the one well takes all eight
      channel-loads; on an 8-row plate started at row A each well of the
      column takes one; on a 16-row plate started at row A or B each
      every-other-row well of the column from the start row takes one. No
      other well of the plate is touched. */
  lemma EightChannelWeight(layouts: map<string, Plate>, w: WellRef, s: nat, c: nat, x: string)
    requires w.plate in layouts && layouts[w.plate].rows in {1, 8, 16}
    requires s < layouts[w.plate].rows && w.name == WellName(s, c)
    requires StartRowAllowed(layouts[w.plate], w.name)
    ensures layouts[w.plate].rows == 1 ==>
      Weight(layouts, w, 8, w.plate, x) == if x == w.name then 8 else 0
    ensures layouts[w.plate].rows != 1 ==>
      Weight(layouts, w, 8, w.plate, x) == if x in ColumnWells(layouts[w.plate], c, s) then 1 else 0
  {
    var p := layouts[w.plate];
    if p.rows == 1 {
      EightChannelWeightOneRow(layouts, w, x);
    } else if p.rows == 8 {
      assert s == 0 by { assert w.name[0] == RowLetter(s) == 'A'; }
      EightChannelWeightEightRows(layouts, w, c, x);
    } else {
      assert s < 2 by { assert w.name[0] == RowLetter(s); }
      EightChannelWeightSixteenRows(layouts, w, s, c, x);
    }
  }

  /** A move changes each tracked well by delta times its weight. */
  lemma MoveAt(layouts: map<string, Plate>, vols: Volumes, w: WellRef, channels: int, delta: real, q: string, x: string)
    requires Movable(layouts, vols, w, channels)
    requires q in vols && x in vols[q]
    ensures Move(layouts, vols, w, channels, delta)[q][x] == vols[q][x] + Times(Weight(layouts, w, channels, q, x), delta)
  {
    if q == w.plate {
      var f := ChannelWells(layouts[w.plate], w.name, channels).value;
      ShiftAt(vols[q], f.wells, Times(f.multiplier, delta), x);
      TimesTimes(Count(f.wells, x), f.multiplier, delta);
    }
  }

  /** A debit (a move by -volume) lowers each tracked well by volume times its weight. */
  lemma MoveDebitAt(layouts: map<string, Plate>, vols: Volumes, w: WellRef, channels: int, volume: real, q: string, x: string)
    requires Movable(layouts, vols, w, channels)
    requires q in vols && x in vols[q]
    ensures Move(layouts, vols, w, channels, -volume)[q][x] == vols[q][x] - Times(Weight(layouts, w, channels, q, x), volume)
  {
    MoveAt(layouts, vols, w, channels, -volume, q, x);
    TimesNegate(Weight(layouts, w, channels, q, x), volume);
  }

  /** The effect of a successful adjustment on any tracked well: it loses the
      volume times its source weight and, unless the destination is the
      trash, gains the volume times its destination weight. Wells outside
      both fan-outs keep their volume. */
  lemma AdjustAt(layouts: map<string, Plate>, vols: Volumes, volume: real,
                 source: WellRef, destination: WellRef, channels: int, q: string, x: string)
    requires Registered(layouts, vols)
    requires AdjustSpec(layouts, vols, volume, source, destination, channels).1 == Pass
    requires q in vols && x in vols[q]
    ensures AdjustSpec(layouts, vols, volume, source, destination, channels).0[q][x]
         == vols[q][x] - Times(Weight(layouts, source, channels, q, x), volume)
            + (if IsTrash(destination.plate) then 0.0 else Times(Weight(layouts, destination, channels, q, x), volume))
  {
    AdjustSpecSteps(layouts, vols, volume, source, destination, channels);
    var debited := Move(layouts, vols, source, channels, -volume);
    MoveDebitAt(layouts, vols, source, channels, volume, q, x);
    if !IsTrash(destination.plate) {
      MoveAt(layouts, debited, destination, channels, volume, q, x);
    }
  }

  /** The one error raised after a change: an 8-channel transfer into a plate
      whose row count has no fan-out. */
  lemma AdjustLateFailure(layouts: map<string, Plate>, vols: Volumes, volume: real,
                          source: WellRef, destination: WellRef, channels: int)
    requires Registered(layouts, vols)
    requires AdjustSpec(layouts, vols, volume, source, destination, channels).1.Fail?
    requires AdjustError(layouts, vols, source, destination, channels).None?
    ensures channels == 8 && !IsTrash(destination.plate) && layouts[destination.plate].rows !in {1, 8, 16}
    ensures AdjustSpec(layouts, vols, volume, source, destination, channels).1 == Fail(UnsupportedPlateGeometry)
  {
  }

  /** After that late failure the source debit stays and nothing is credited. */
  lemma AdjustPartialDebit(layouts: map<string, Plate>, vols: Volumes, volume: real,
                           source: WellRef, destination: WellRef, channels: int, q: string, x: string)
    requires Registered(layouts, vols)
    requires AdjustSpec(layouts, vols, volume, source, destination, channels).1.Fail?
    requires AdjustError(layouts, vols, source, destination, channels).None?
    requires q in vols && x in vols[q]
    ensures AdjustSpec(layouts, vols, volume, source, destination, channels).0[q][x]
         == vols[q][x] - Times(Weight(layouts, source, channels, q, x), volume)
  {
    AdjustLateFailure(layouts, vols, volume, source, destination, channels);
    AdjustSpecSteps(layouts, vols, volume, source, destination, channels);
    MoveDebitAt(layouts, vols, source, channels, volume, q, x);
  }

  /** A single-channel adjustment succeeds exactly when both wells are
      tracked under non-empty names (or the destination is the trash). It takes the volume from
      the source well, adds it to the destination well unless that is the
      trash, and changes no other well. */
  lemma AdjustSingleChannel(layouts: map<string, Plate>, vols: Volumes, volume: real,
                            source: WellRef, destination: WellRef, q: string, x: string)
    requires Registered(layouts, vols)
    requires q in vols && x in vols[q]
    ensures AdjustSpec(layouts, vols, volume, source, destination, 1).1 == Pass <==>
      && source.plate in vols && |source.name| >= 1 && source.name in vols[source.plate]
      && (IsTrash(destination.plate) ||
          (destination.plate in vols && |destination.name| >= 1 && destination.name in vols[destination.plate]))
    ensures AdjustSpec(layouts, vols, volume, source, destination, 1).1 == Pass ==>
      AdjustSpec(layouts, vols, volume, source, destination, 1).0[q][x]
      == vols[q][x] - (if q == source.plate && x == source.name then volume else 0.0)
         + (if !IsTrash(destination.plate) && q == destination.plate && x == destination.name then volume else 0.0)
  {
    if AdjustSpec(layouts, vols, volume, source, destination, 1).1 == Pass {
      AdjustAt(layouts, vols, volume, source, destination, 1, q, x);
      SingleChannelWeight(layouts, source, q, x);
      if !IsTrash(destination.plate) {
        SingleChannelWeight(layouts, destination, q, x);
      }
    }
  }

  /** Once both plates and names are found, the channel count is checked
      next: it must be 1 or 8; otherwise nothing changes. */
  lemma AdjustChannelCount(layouts: map<string, Plate>, vols: Volumes, volume: real,
                           source: WellRef, destination: WellRef, channels: int)
    requires Registered(layouts, vols)
    requires source.plate in vols && |source.name| >= 1
    requires IsTrash(destination.plate) || (destination.plate in vols && |destination.name| >= 1)
    ensures AdjustSpec(layouts, vols, volume, source, destination, channels).1 == Fail(WrongChannelCount)
            <==> channels != 1 && channels != 8
    ensures channels != 1 && channels != 8 ==>
      AdjustSpec(layouts, vols, volume, source, destination, channels).0 == vols
  {
  }

  /** With both plates registered and both names non-empty, an 8-channel adjustment is refused for its
      start row exactly when the source or (unless it is the trash) the
      destination starts at a row its plate does not allow, and then nothing
      changes. */
  lemma AdjustAlignment(layouts: map<string, Plate>, vols: Volumes, volume: real,
                        source: WellRef, destination: WellRef)
    requires Registered(layouts, vols)
    requires source.plate in vols && |source.name| >= 1
    requires IsTrash(destination.plate) || (destination.plate in vols && |destination.name| >= 1)
    ensures AdjustSpec(layouts, vols, volume, source, destination, 8).1 == Fail(InvalidMultichannelAlignment)
      <==> !StartRowAllowed(layouts[source.plate], source.name)
           || (!IsTrash(destination.plate) && !StartRowAllowed(layouts[destination.plate], destination.name))
    ensures AdjustSpec(layouts, vols, volume, source, destination, 8).1 == Fail(InvalidMultichannelAlignment)
      ==> AdjustSpec(layouts, vols, volume, source, destination, 8).0 == vols
  {
  }

  // ---------------------------------------------------------------------
  // Conservation: the sum of all tracked volumes

  ghost function SumValues<K>(m: map<K, real>): real
    decreases m.Keys
  {
    if m.Keys == {} then 0.0
    else
      var k :| k in m.Keys;
      m[k] + SumValues(m - {k})
  }

  lemma {:induction false} SumValuesRemove<K>(m: map<K, real>, k: K)
    requires k in m
    ensures SumValues(m) == m[k] + SumValues(m - {k})
    decreases m.Keys
  {
    var j :| j in m.Keys && SumValues(m) == m[j] + SumValues(m - {j});
    if j != k {
      var mj, mk := m - {j}, m - {k};
      SumValuesRemove(mj, k);
      SumValuesRemove(mk, j);
      assert mj - {k} == mk - {j};
    }
  }

  lemma SumValuesUpdate<K>(m: map<K, real>, k: K, delta: real)
    requires k in m
    ensures SumValues(m[k := m[k] + delta]) == SumValues(m) + delta
  {
    var m' := m[k := m[k] + delta];
    SumValuesRemove(m', k);
    SumValuesRemove(m, k);
    assert m' - {k} == m - {k};
  }

  /** The sum over all tracked wells of all registered plates. */
  ghost function Total(vols: Volumes): real
    decreases vols.Keys
  {
    if vols.Keys == {} then 0.0
    else
      var p :| p in vols.Keys;
      SumValues(vols[p]) + Total(vols - {p})
  }

  lemma {:induction false} TotalRemove(vols: Volumes, plate: string)
    requires plate in vols
    ensures Total(vols) == SumValues(vols[plate]) + Total(vols - {plate})
    decreases vols.Keys
  {
    var j :| j in vols.Keys && Total(vols) == SumValues(vols[j]) + Total(vols - {j});
    if j != plate {
      var vj, vp := vols - {j}, vols - {plate};
      TotalRemove(vj, plate);
      TotalRemove(vp, j);
      assert vj - {plate} == vp - {j};
    }
  }

  /** Shifting the wells of one plate changes that plate's sum by delta per listed well. */
  lemma {:induction false} SumShift(m: map<string, real>, wells: seq<string>, delta: real)
    requires forall i | 0 <= i < |wells| :: wells[i] in m
    ensures SumValues(Shift(m, wells, delta)) == SumValues(m) + Times(|wells|, delta)
    decreases |wells|
  {
    if wells != [] {
      var init := wells[..|wells| - 1];
      SumShift(m, init, delta);
      SumValuesUpdate(Shift(m, init, delta), wells[|wells| - 1], delta);
    }
  }


  /** Replacing one plate's wells changes the total by the change in that plate's sum. */
  lemma TotalReplace(vols: Volumes, plate: string, m: map<string, real>)
    requires plate in vols
    ensures Total(vols[plate := m]) == Total(vols) - SumValues(vols[plate]) + SumValues(m)
  {
    var after := vols[plate := m];
    TotalRemove(after, plate);
    TotalRemove(vols, plate);
    assert after - {plate} == vols - {plate};
  }


  /** A move of delta per channel changes the total by delta times the
      channel count. */
  lemma TotalMove(layouts: map<string, Plate>, vols: Volumes, w: WellRef, channels: nat, delta: real)
    requires Movable(layouts, vols, w, channels)
    requires channels == 1 || channels == 8
    ensures Total(Move(layouts, vols, w, channels, delta)) == Total(vols) + Times(channels, delta)
  {
    var f := ChannelWells(layouts[w.plate], w.name, channels).value;
    TotalReplace(vols, w.plate, Shift(vols[w.plate], f.wells, Times(f.multiplier, delta)));
    SumShift(vols[w.plate], f.wells, Times(f.multiplier, delta));
    // one well per channel, or one well taking every channel's load
    if f.multiplier == 1 {
      assert Times(1, delta) == delta;
    } else {
      assert |f.wells| == 1 && f.multiplier == channels;
      assert Times(1, Times(channels, delta)) == Times(channels, delta);
    }
  }

  /** A debit of the source lowers the total by the volume once per channel. */
  lemma TotalDebit(layouts: map<string, Plate>, vols: Volumes, w: WellRef, channels: nat, volume: real)
    requires Movable(layouts, vols, w, channels)
    requires channels == 1 || channels == 8
    ensures Total(Move(layouts, vols, w, channels, -volume)) == Total(vols) - Times(channels, volume)
  {
    var f := ChannelWells(layouts[w.plate], w.name, channels).value;
    TotalReplace(vols, w.plate, Shift(vols[w.plate], f.wells, Times(f.multiplier, -volume)));
    SumShift(vols[w.plate], f.wells, Times(f.multiplier, -volume));
    TimesNegate(channels, volume);
    if f.multiplier == 1 {
      assert Times(1, -volume) == -volume;
    } else {
      assert |f.wells| == 1 && f.multiplier == channels;
      assert Times(1, Times(channels, -volume)) == Times(channels, -volume);
    }
  }

  /** A debit followed by a credit of the same volume leaves the total as it was. */
  lemma TotalDebitCredit(layouts: map<string, Plate>, vols: Volumes, source: WellRef, destination: WellRef,
                         channels: nat, volume: real)
    requires Movable(layouts, vols, source, channels)
    requires Movable(layouts, Move(layouts, vols, source, channels, -volume), destination, channels)
    requires channels == 1 || channels == 8
    ensures Total(Move(layouts, Move(layouts, vols, source, channels, -volume), destination, channels, volume))
         == Total(vols)
  {
    TotalDebit(layouts, vols, source, channels, volume);
    TotalMove(layouts, Move(layouts, vols, source, channels, -volume), destination, channels, volume);
  }

  /** Conservation: a successful adjustment leaves the total over all tracked
      plates unchanged, except that liquid sent to the trash (the volume times
      the channel count, Times(channels, volume)) leaves the ledger. */
  lemma AdjustConserves(layouts: map<string, Plate>, vols: Volumes, volume: real,
                        source: WellRef, destination: WellRef, channels: nat)
    requires Registered(layouts, vols)
    requires AdjustSpec(layouts, vols, volume, source, destination, channels).1 == Pass
    ensures Total(AdjustSpec(layouts, vols, volume, source, destination, channels).0)
         == Total(vols) - (if IsTrash(destination.plate) then Times(channels, volume) else 0.0)
  {
    AdjustSpecSteps(layouts, vols, volume, source, destination, channels);
    if IsTrash(destination.plate) {
      TotalDebit(layouts, vols, source, channels, volume);
    } else {
      TotalDebitCredit(layouts, vols, source, destination, channels, volume);
    }
  }

  // ---------------------------------------------------------------------
  // The ledger object

  /** all_volumes: the registered plates (fixed for the run) and the volume
      of each of their wells. */
  class VolumeLedger {
    const layouts: map<string, Plate>
    var volumes: Volumes

    ghost predicate Valid()
      reads this
    {
      && (forall k | k in layouts :: layouts[k].rows <= 26)
      && Registered(layouts, volumes)
    }

    /** Registers the plates, every well empty. */
    constructor (plates: map<string, Plate>)
      requires forall k | k in plates :: plates[k].rows <= 26
      ensures Valid() && layouts == plates
      ensures volumes == ZeroLedger(plates)
    {
      layouts := plates;
      volumes := ZeroLedger(plates);
    }

    /** reset_well_volumes: every registered plate's volume map is rebuilt
        from the plate's own wells, all zero. */
    method Reset()
      requires Valid()
      modifies this
      ensures Valid()
      ensures volumes == ZeroLedger(layouts)
    {
      var pending := volumes.Keys;
      while pending != {}
        invariant pending <= layouts.Keys
        invariant volumes.Keys == layouts.Keys
        invariant forall k | k in layouts && k !in pending :: volumes[k] == ZeroVolumes(layouts[k])
        decreases pending
      {
        var k :| k in pending;
        volumes := volumes[k := ZeroVolumes(layouts[k])];
        pending := pending - {k};
      }
    }

    /** One `-=` or `+=` loop of adjust_well_volume over the fan-out of w. */
    method ApplyMove(w: WellRef, channels: int, delta: real)
      requires Movable(layouts, volumes, w, channels)
      modifies this
      ensures volumes == Move(layouts, old(volumes), w, channels, delta)
    {
      var f := ChannelWells(layouts[w.plate], w.name, channels).value;
      var amount := Times(f.multiplier, delta);
      var i := 0;
      while i < |f.wells|
        invariant 0 <= i <= |f.wells|
        invariant volumes == old(volumes)[w.plate := Shift(old(volumes)[w.plate], f.wells[..i], amount)]
      {
        assert f.wells[..i + 1][..i] == f.wells[..i];
        var x := f.wells[i];
        volumes := volumes[w.plate := volumes[w.plate][x := volumes[w.plate][x] + amount]];
        i := i + 1;
      }
      assert f.wells[..i] == f.wells;
    }

    /** adjust_well_volume: records that a pipette with the given channel
        count moved `volume` per channel from the source to the destination.
        Located points are resolved to their wells. */
    method Adjust(volume: real, source: Place, destination: Place, channels: int) returns (r: Outcome)
      requires Valid()
      modifies this
      ensures Valid()
      ensures volumes == AdjustSpec(layouts, old(volumes), volume, source.well, destination.well, channels).0
      ensures r == AdjustSpec(layouts, old(volumes), volume, source.well, destination.well, channels).1
    {
      var src, dst := source.well, destination.well;
      var notTrash := !IsTrash(dst.plate);
      // plate, name, channel-count, alignment and well checks, in the source's order
      var err := AdjustError(layouts, volumes, src, dst, channels);
      if err.Some? { return Fail(err.value); }

      ghost var before := volumes;

      // subtract volume from the source well(s)
      ApplyMove(src, channels, -volume);
      ghost var debited := volumes;
      AdjustSpecAfterDebit(layouts, before, volume, src, dst, channels, debited);

      // add volume to the destination well(s)
      if notTrash {
        if ChannelWells(layouts[dst.plate], dst.name, channels).None? { return Fail(UnsupportedPlateGeometry); }
        ApplyMove(dst, channels, volume);
        AdjustSpecAfterCredit(layouts, before, volume, src, dst, channels, debited, volumes);
      }
      return Pass;
    }
  }
}
