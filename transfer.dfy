/** custom_transfer and offset_dispense: moving one volume from a source well
    into a list of destination wells, either with one aspirate per
    destination ("single") or with one aspirate per batch of destinations
    ("distribute"), recording every transfer in the volume ledger. */
module Transfer {
  import opened Outcomes
  import opened Labware
  import opened Geometry
  import opened Ledger
  import opened Hardware

  // ---------------------------------------------------------------------
  // offset_dispense

  /** The keyword arguments of offset_dispense. A custom offset distance
      replaces the computed one only when it is given and non-zero (Python
      truthiness of the argument). */
  datatype DispenseOptions = DispenseOptions(
    direction: string,
    customOffset: Option<real>,
    height: real,
    doBlowout: bool,
    blowoutHeight: real,
    doTouchTip: bool,
    rate: real,
    inspectTips: bool)

  /** How far from the well's centre the tip dispenses: the custom distance
      when it is given and non-zero, otherwise the tapered-tip edge offset at
      the dispense height. */
  function DispenseDistance(pipetteName: string, shape: WellShape, o: DispenseOptions): (r: Result<real>)
    ensures o.customOffset.Some? && o.customOffset.value != 0.0 ==> r == Ok(o.customOffset.value)
    ensures !(o.customOffset.Some? && o.customOffset.value != 0.0) ==>
      r == WellEdgeOffset(pipetteName, shape, o.height)
  {
    if o.customOffset.Some? && o.customOffset.value != 0.0 then Ok(o.customOffset.value)
    else WellEdgeOffset(pipetteName, shape, o.height)
  }

  /** Lifting the tips 10 mm above the well and pausing 3 s so that they can
      be inspected. */
  function InspectActions(w: WellRef, o: DispenseOptions): seq<Action>
  {
    if o.inspectTips then [MoveTo(Top(w, 10.0)), Delay(3.0)] else []
  }

  /** Going to the centre at the dispense height, sliding over to the side,
      dispensing there and sliding back to the centre. */
  function MainActions(w: WellRef, volume: real, o: DispenseOptions, x: real, y: real): seq<Action>
  {
    [MoveTo(Bottom(w, o.height, 0.0, 0.0)), MoveTo(Bottom(w, o.height, x, y))]
    + [Dispense(volume, None, o.rate)]
    + [MoveTo(Bottom(w, o.height, 0.0, 0.0))]
  }

  /** The optional blow-out: up to the blow-out height at the centre, over to
      the side (at the dispense height, as written), blow out, back to the
      centre at the blow-out height. */
  function BlowoutActions(w: WellRef, o: DispenseOptions, x: real, y: real): seq<Action>
  {
    if o.doBlowout then
      [MoveTo(Bottom(w, o.blowoutHeight, 0.0, 0.0)), MoveTo(Bottom(w, o.height, x, y))]
      + [BlowOut(None)]
      + [MoveTo(Bottom(w, o.blowoutHeight, 0.0, 0.0))]
    else []
  }

  /** The optional slow touch of the tip against the well. */
  function TouchActions(o: DispenseOptions): seq<Action>
  {
    if o.doTouchTip then [TouchTip(SlowTouchSpeed)] else []
  }

  /** The actions of one offset dispense into well w with lateral
      displacement (x, y). */
  function DispenseActions(w: WellRef, volume: real, o: DispenseOptions, x: real, y: real): seq<Action>
  {
    InspectActions(w, o) + MainActions(w, volume, o, x, y) + BlowoutActions(w, o, x, y) + TouchActions(o)
  }

  /** offset_dispense as a plan: the target must be a well, its offset
      distance must be computable and the direction must be one of the five;
      every check happens before any action. */
  function DispensePlan(pipetteName: string, shape: WellShape, target: Place, volume: real,
                        o: DispenseOptions): (r: Result<seq<Action>>)
    ensures r.Ok? <==>
      target.Well? && DispenseDistance(pipetteName, shape, o).Ok? && IsDirection(o.direction)
    ensures !target.Well? ==> r == Err(NotAWell)
    ensures target.Well? && DispenseDistance(pipetteName, shape, o).Err? ==>
      r == Err(DispenseDistance(pipetteName, shape, o).error)
    ensures target.Well? && DispenseDistance(pipetteName, shape, o).Ok? && !IsDirection(o.direction) ==>
      r == Err(InvalidOffsetDirection)
  {
    if !target.Well? then Err(NotAWell)
    else
      var distance :- DispenseDistance(pipetteName, shape, o);
      var xy :- DirectionOffset(o.direction, distance);
      Ok(DispenseActions(target.well, volume, o, xy.0, xy.1))
  }

  lemma ReplaySingle(s: TipState, a: Action)
    ensures Replay(s, [a]) == Step(s, a)
  {
    assert [a][..0] == [];
  }

  /** A move, a single action, and another move act like the single action. */
  lemma ReplayBetweenInert(s: TipState, before: seq<Action>, a: Action, after: seq<Action>)
    requires forall i | 0 <= i < |before| :: Inert(before[i])
    requires forall i | 0 <= i < |after| :: Inert(after[i])
    ensures Replay(s, before + [a] + after) == Step(s, a)
  {
    ReplayInert(s, before);
    ReplayAppend(s, before, [a]);
    ReplaySingle(s, a);
    ReplayAppend(s, before + [a], after);
    ReplayInert(Step(s, a), after);
  }

  /** What an offset dispense does to the tip: it stays mounted, and holds the
      dispensed volume less, or nothing after a blow-out. */
  lemma DispenseEffect(s: TipState, w: WellRef, volume: real, o: DispenseOptions, x: real, y: real)
    ensures Replay(s, DispenseActions(w, volume, o, x, y))
         == TipState(s.hasTip, if o.doBlowout then 0.0 else s.volume - volume)
  {
    var inspect, main := InspectActions(w, o), MainActions(w, volume, o, x, y);
    var blow, touch := BlowoutActions(w, o, x, y), TouchActions(o);
    ReplayInert(s, inspect);
    var centre, side := Bottom(w, o.height, 0.0, 0.0), Bottom(w, o.height, x, y);
    ReplayBetweenInert(s, [MoveTo(centre), MoveTo(side)], Dispense(volume, None, o.rate), [MoveTo(centre)]);
    ReplayAppend(s, inspect, main);
    var t := Replay(s, inspect + main);
    assert t == TipState(s.hasTip, s.volume - volume);
    if o.doBlowout {
      var blowCentre := Bottom(w, o.blowoutHeight, 0.0, 0.0);
      ReplayBetweenInert(t, [MoveTo(blowCentre), MoveTo(side)], BlowOut(None), [MoveTo(blowCentre)]);
    } else {
      ReplayInert(t, blow);
    }
    ReplayAppend(s, inspect + main, blow);
    ReplayAppend(s, inspect + main + blow, touch);
    ReplayInert(Replay(s, inspect + main + blow), touch);
  }

  /** The dispense itself happens right after the slide to the side, at the
      displacement the direction gives for the plan's distance. */
  lemma DispenseAtOffset(pipetteName: string, shape: WellShape, target: Place, volume: real, o: DispenseOptions)
    requires DispensePlan(pipetteName, shape, target, volume, o).Ok?
    ensures var plan := DispensePlan(pipetteName, shape, target, volume, o).value;
      var xy := DirectionOffset(o.direction, DispenseDistance(pipetteName, shape, o).value).value;
      exists k :: 1 <= k < |plan| && plan[k - 1] == MoveTo(Bottom(target.well, o.height, xy.0, xy.1))
                              && plan[k] == Dispense(volume, None, o.rate)
  {
    var plan := DispensePlan(pipetteName, shape, target, volume, o).value;
    var xy := DirectionOffset(o.direction, DispenseDistance(pipetteName, shape, o).value).value;
    assert plan == DispenseActions(target.well, volume, o, xy.0, xy.1);
    var k := if o.inspectTips then 4 else 2;
    assert plan[k - 1] == MoveTo(Bottom(target.well, o.height, xy.0, xy.1));
    assert plan[k] == Dispense(volume, None, o.rate);
  }

  /** Whatever the offset, a planned dispense leaves the tip mounted and
      holding the dispensed volume less, or nothing after a blow-out. */
  lemma PlanEffect(pipetteName: string, shape: WellShape, target: Place, volume: real, o: DispenseOptions,
                   s: TipState)
    requires DispensePlan(pipetteName, shape, target, volume, o).Ok?
    ensures Replay(s, DispensePlan(pipetteName, shape, target, volume, o).value)
         == TipState(s.hasTip, if o.doBlowout then 0.0 else s.volume - volume)
  {
    var xy := DirectionOffset(o.direction, DispenseDistance(pipetteName, shape, o).value).value;
    DispenseEffect(s, target.well, volume, o, xy.0, xy.1);
  }

  /** offset_dispense: dispenses into a well at the offset the direction
      gives, as DispensePlan describes; on an error nothing is done. */
  method OffsetDispense(pip: Pipette, shape: WellShape, target: Place, volume: real, o: DispenseOptions)
    returns (r: Outcome)
    requires pip.Valid()
    modifies pip
    ensures pip.Valid()
    ensures var plan := DispensePlan(pip.name, shape, target, volume, o);
      && (plan.Err? ==> r == Fail(plan.error) && pip.log == old(pip.log) && pip.State() == old(pip.State()))
      && (plan.Ok? ==> r == Pass && pip.log == old(pip.log) + plan.value
                       && pip.State() == Replay(old(pip.State()), plan.value))
  {
    if !target.Well? { return Fail(NotAWell); }
    var w := target.well;

    // offset for pipetting against the edge of the well
    var distance: real;
    if o.customOffset.Some? && o.customOffset.value != 0.0 {
      distance := o.customOffset.value;
    } else {
      var edge := WellEdgeOffset(pip.name, shape, o.height);
      if edge.Err? { return Fail(edge.error); }
      distance := edge.value;
    }

    // x and y offsets for the direction
    var xy := DirectionOffset(o.direction, distance);
    if xy.Err? { return Fail(xy.error); }
    var x, y := xy.value.0, xy.value.1;

    DispenseAt(pip, w, volume, o, x, y);
    return Pass;
  }

  /** The moves and liquid handling of offset_dispense, once the offset is known. */
  method DispenseAt(pip: Pipette, w: WellRef, volume: real, o: DispenseOptions, x: real, y: real)
    requires pip.Valid()
    modifies pip
    ensures pip.Valid()
    ensures pip.log == old(pip.log) + DispenseActions(w, volume, o, x, y)
    ensures pip.State() == Replay(old(pip.State()), DispenseActions(w, volume, o, x, y))
  {
    ghost var log0 := pip.log;
    ghost var actions := DispenseActions(w, volume, o, x, y);
    ghost var inspect, main := InspectActions(w, o), MainActions(w, volume, o, x, y);
    ghost var blow, touch := BlowoutActions(w, o, x, y), TouchActions(o);
    assert actions == inspect + main + blow + touch;
    InspectTips(pip, w, o);
    DispenseAtSide(pip, w, volume, o, x, y);
    BlowOutAtSide(pip, w, o, x, y);
    TouchTipSlowly(pip, o);
    assert pip.log == log0 + inspect + main + blow + touch;
    assert pip.log == log0 + actions;
    ReplayAppend(pip.initial, log0, actions);
  }

  /** When asked to, lifts the tips above the well and pauses so that they
      can be inspected. */
  method InspectTips(pip: Pipette, w: WellRef, o: DispenseOptions)
    requires pip.Valid()
    modifies pip
    ensures pip.Valid()
    ensures pip.log == old(pip.log) + InspectActions(w, o)
  {
    if o.inspectTips {
      pip.Perform(MoveTo(Top(w, 10.0)));
      pip.Perform(Delay(3.0));
    }
  }

  /** When asked to, touches the tip against the well at the slow speed. */
  method TouchTipSlowly(pip: Pipette, o: DispenseOptions)
    requires pip.Valid()
    modifies pip
    ensures pip.Valid()
    ensures pip.log == old(pip.log) + TouchActions(o)
  {
    if o.doTouchTip {
      pip.Perform(TouchTip(SlowTouchSpeed));
    }
  }

  /** Centre, slide to the side, dispense, slide back to the centre. */
  method DispenseAtSide(pip: Pipette, w: WellRef, volume: real, o: DispenseOptions, x: real, y: real)
    requires pip.Valid()
    modifies pip
    ensures pip.Valid()
    ensures pip.log == old(pip.log) + MainActions(w, volume, o, x, y)
  {
    pip.Perform(MoveTo(Bottom(w, o.height, 0.0, 0.0)));
    pip.Perform(MoveTo(Bottom(w, o.height, x, y)));
    pip.Perform(Dispense(volume, None, o.rate));
    pip.Perform(MoveTo(Bottom(w, o.height, 0.0, 0.0)));
  }

  /** When asked to, goes up to the blow-out height, over to the side, blows
      out and returns to the centre. */
  method BlowOutAtSide(pip: Pipette, w: WellRef, o: DispenseOptions, x: real, y: real)
    requires pip.Valid()
    modifies pip
    ensures pip.Valid()
    ensures pip.log == old(pip.log) + BlowoutActions(w, o, x, y)
  {
    if o.doBlowout {
      pip.Perform(MoveTo(Bottom(w, o.blowoutHeight, 0.0, 0.0)));
      pip.Perform(MoveTo(Bottom(w, o.height, x, y)));
      pip.Perform(BlowOut(None));
      pip.Perform(MoveTo(Bottom(w, o.blowoutHeight, 0.0, 0.0)));
    }
  }

  // ---------------------------------------------------------------------
  // Batching of a distribute transfer

  /** Fraction of the pipette's capacity aspirated on top of each batch and
      never dispensed. */
  const Carryover: real := 0.1

  lemma RealMulStrict(a: real, b: real, c: real)
    requires a < b && c > 0.0
    ensures a * c < b * c
  {
    assert b * c - a * c == (b - a) * c;
  }

  lemma RealMulMono(a: real, b: real, c: real)
    requires a <= b && c > 0.0
    ensures a * c <= b * c
  {
    if a < b { RealMulStrict(a, b, c); }
  }

  /** int(max_volume * (1 - carryover) / transfer_volume): the number of
      destinations one aspirate can serve, the largest count whose volume
      fits in the usable capacity. */
  function MaxWellsPerAspirate(maxVolume: real, volume: real): (k: int)
    requires volume > 0.0
    ensures k as real * volume <= maxVolume * (1.0 - Carryover) < (k + 1) as real * volume
    ensures maxVolume >= 0.0 ==> k >= 0
  {
    var q := maxVolume * (1.0 - Carryover) / volume;
    var k := q.Floor;
    assert q * volume == maxVolume * (1.0 - Carryover);
    assert k as real <= q < k as real + 1.0;
    RealMulMono(k as real, q, volume);
    RealMulStrict(q, k as real + 1.0, volume);
    assert maxVolume * (1.0 - Carryover) < (k as real + 1.0) * volume;
    assert (k + 1) as real == k as real + 1.0;
    k
  }

  /** ceil(a / b) for a non-negative a and a positive b. */
  function CeilDiv(a: nat, b: nat): (q: nat)
    requires b > 0
  {
    (a + b - 1) / b
  }

  lemma MulMono(a: int, c: int, b: int)
    requires a <= c && b >= 0
    ensures a * b <= c * b
  {
    assert c * b - a * b == (c - a) * b;
  }

  lemma DivUnique(x: int, b: int, q: int)
    requires b > 0 && q * b <= x < (q + 1) * b
    ensures x / b == q
  {
    var d, r := x / b, x % b;
    assert x == d * b + r && 0 <= r < b;
    if d < q {
      MulMono(d + 1, q, b);
    } else if d > q {
      MulMono(q + 1, d, b);
    }
  }

  /** CeilDiv(a, b) is the q with (q - 1) * b < a <= q * b. */
  lemma CeilDivIs(a: nat, b: nat, q: nat)
    requires b > 0 && (q - 1) * b < a <= q * b
    ensures CeilDiv(a, b) == q
  {
    assert (q - 1) * b == q * b - b;
    DivUnique(a + b - 1, b, q);
  }

  /** One more full group adds one to the group count. */
  lemma CeilDivStep(a: nat, b: nat)
    requires b > 0
    ensures CeilDiv(a + b, b) == CeilDiv(a, b) + 1
  {
    var q := CeilDiv(a, b);
    CeilDivBounds(a, b);
    assert (q + 1) * b == q * b + b;
    CeilDivIs(a + b, b, q + 1);
  }

  /** Between one and b items make a single group. */
  lemma CeilDivOne(a: nat, b: nat)
    requires 0 < a <= b
    ensures CeilDiv(a, b) == 1
  {
    CeilDivIs(a, b, 1);
  }

  lemma CeilDivBounds(a: nat, b: nat)
    requires b > 0
    ensures (CeilDiv(a, b) - 1) * b < a <= CeilDiv(a, b) * b
  {
    var q := CeilDiv(a, b);
    var r := (a + b - 1) % b;
    assert a + b - 1 == q * b + r && 0 <= r < b;
    assert (q - 1) * b == q * b - b;
  }

  /** The batch size of a distribute transfer over n destinations: the
      capacity count, or with an even split the size that cuts the same
      number of aspirates into batches as equal as possible. A capacity of
      zero is refused (see DistributeStalls for the code as written), and an
      even split of no destinations divides by zero, as written. */
  function DistributeSize(maxVolume: real, volume: real, n: nat, evenSplit: bool): (r: Result<nat>)
    requires volume > 0.0
    ensures r.Ok? ==> r.value >= 1
    ensures r.Err? <==> MaxWellsPerAspirate(maxVolume, volume) <= 0 || (evenSplit && n == 0)
    ensures r.Ok? && !evenSplit ==> r.value == MaxWellsPerAspirate(maxVolume, volume)
    ensures r.Ok? && evenSplit ==>
      && r.value <= MaxWellsPerAspirate(maxVolume, volume)
      && CeilDiv(n, r.value) == CeilDiv(n, MaxWellsPerAspirate(maxVolume, volume))
    ensures r.Ok? ==> r.value as real * volume <= maxVolume * (1.0 - Carryover)
    ensures r.Ok? && evenSplit ==> forall b :: 1 <= b < r.value ==>
      CeilDiv(n, b) > CeilDiv(n, MaxWellsPerAspirate(maxVolume, volume))
  {
    var size := MaxWellsPerAspirate(maxVolume, volume);
    if size <= 0 then Err(NoDistributeCapacity)
    else if !evenSplit then Ok(size)
    else if n == 0 then Err(EmptyEvenSplit)
    else
      var even := CeilDiv(n, CeilDiv(n, size));
      EvenSplitKeepsGroups(n, size);
      EvenIsLeast(n, size);
      RealMulMono(even as real, size as real, volume);
      Ok(even)
  }

  /** The even split keeps the number of aspirates and never makes a batch
      larger. */
  lemma EvenSplitKeepsGroups(n: nat, size: nat)
    requires n >= 1 && size >= 1
    ensures var groups := CeilDiv(n, size);
      && groups >= 1
      && 1 <= CeilDiv(n, groups) <= size
      && CeilDiv(n, CeilDiv(n, groups)) == groups
  {
    var groups := CeilDiv(n, size);
    CeilDivBounds(n, size);
    assert groups >= 1;
    var even := CeilDiv(n, groups);
    CeilDivBounds(n, groups);
    assert even >= 1;
    assert even <= size by {
      if even > size {
        MulMono(size, even - 1, groups);
      }
    }
    MulMono(even, size, groups - 1);
    assert (groups - 1) * even <= (groups - 1) * size;
    assert even * groups == groups * even;
    CeilDivIs(n, even, groups);
  }

  /** The even split is the smallest batch size that keeps the number of
      aspirates: every smaller batch needs more of them. */
  lemma EvenIsLeast(n: nat, size: nat)
    requires n >= 1 && size >= 1
    ensures forall b :: 1 <= b < CeilDiv(n, CeilDiv(n, size)) ==> CeilDiv(n, b) > CeilDiv(n, size)
  {
    var groups := CeilDiv(n, size);
    CeilDivBounds(n, size);
    var even := CeilDiv(n, groups);
    CeilDivBounds(n, groups);
    forall b | 1 <= b < even
      ensures CeilDiv(n, b) > groups
    {
      // b batches of size at most even - 1 hold fewer than n destinations
      MulMono(b, even - 1, groups);
      assert b * groups < n;
      var h := CeilDiv(n, b);
      CeilDivBounds(n, b);
      if h <= groups {
        // then n <= h * b <= groups * b < n
        MulMono(h, groups, b);
      }
    }
  }

  function Reverse<T>(s: seq<T>): (r: seq<T>)
    ensures |r| == |s|
    decreases |s|
  {
    if s == [] then [] else Reverse(s[1..]) + [s[0]]
  }

  lemma {:induction false} ReverseAppend<T>(a: seq<T>, b: seq<T>)
    ensures Reverse(a + b) == Reverse(b) + Reverse(a)
    decreases |a|
  {
    if a == [] {
      assert a + b == b;
    } else {
      ReverseAppend(a[1..], b);
      assert (a + b)[1..] == a[1..] + b;
    }
  }

  lemma {:induction false} ReverseIndex<T>(s: seq<T>, i: nat)
    requires i < |s|
    ensures Reverse(s)[i] == s[|s| - 1 - i]
    decreases |s|
  {
    if i < |s| - 1 {
      ReverseIndex(s[1..], i);
    }
  }

  /** Up to k pops from the end of the working list: the popped destinations
      in pop order, and what is left. */
  function PopBatch<T>(working: seq<T>, k: nat): (r: (seq<T>, seq<T>))
    ensures |r.0| == if k < |working| then k else |working|
    ensures r.1 == working[..|working| - |r.0|]
    ensures forall i | 0 <= i < |r.0| :: r.0[i] == working[|working| - 1 - i]
  {
    var m := if k < |working| then k else |working|;
    var tail := working[|working| - m..];
    forall i | 0 <= i < m ensures Reverse(tail)[i] == working[|working| - 1 - i] {
      ReverseIndex(tail, i);
    }
    (Reverse(tail), working[..|working| - m])
  }

  /** One more pop: the last remaining destination joins the batch. */
  lemma PopOneMore<T>(working: seq<T>, k: nat)
    requires k < |working|
    ensures var (batch, rest) := PopBatch(working, k);
      PopBatch(working, k + 1) == (batch + [rest[|rest| - 1]], rest[..|rest| - 1])
  {
    var n := |working|;
    var j := n - k - 1;
    var (batch, rest) := PopBatch(working, k);
    assert batch == Reverse(working[n - k..]) && rest == working[..n - k];
    assert PopBatch(working, k + 1) == (Reverse(working[j..]), working[..j]);
    assert working[j..][1..] == working[j + 1..];
    assert rest[|rest| - 1] == working[j] && rest[..|rest| - 1] == working[..j];
  }

  /** As written, a batch size of zero pops nothing: the distribute loop's
      working list never shrinks and the loop never ends. */
  lemma DistributeStalls<T>(working: seq<T>)
    ensures PopBatch(working, 0) == ([], working)
  {
    assert working[|working|..] == [];
    assert Reverse<T>([]) == [];
    assert working[..|working|] == working;
  }

  /** A p20 pipette (1 to 20 uL) asked to distribute 19 uL: the volume passes
      the range check, yet no destination fits in one aspirate. */
  lemma NoCapacityWitness()
    ensures 1.0 <= 19.0 <= 20.0
    ensures MaxWellsPerAspirate(20.0, 19.0) == 0
    ensures DistributeSize(20.0, 19.0, 3, false) == Err(NoDistributeCapacity)
  {
  }

  /** The batches of a distribute transfer, in the order they are served:
      each is popped from the end of what is left. */
  function Batches<T>(working: seq<T>, size: nat): (bs: seq<seq<T>>)
    requires size >= 1
    ensures forall i | 0 <= i < |bs| :: 1 <= |bs[i]| <= size && (i < |bs| - 1 ==> |bs[i]| == size)
    decreases |working|
  {
    if working == [] then []
    else
      var (batch, rest) := PopBatch(working, size);
      var later := Batches(rest, size);
      assert later != [] ==> rest != [];
      assert forall i | 1 <= i < 1 + |later| :: ([batch] + later)[i] == later[i - 1];
      [batch] + later
  }

  function Flatten<T>(bs: seq<seq<T>>): seq<T>
    decreases |bs|
  {
    if bs == [] then [] else bs[0] + Flatten(bs[1..])
  }

  /** Served batch after batch, the destinations come in reverse list order. */
  lemma {:induction false} BatchesReverse<T>(working: seq<T>, size: nat)
    requires size >= 1
    ensures Flatten(Batches(working, size)) == Reverse(working)
    decreases |working|
  {
    if working != [] {
      var n := |working|;
      var m := if size < n then size else n;
      var (batch, rest) := PopBatch(working, size);
      BatchesReverse(rest, size);
      assert working == rest + working[n - m..];
      ReverseAppend(rest, working[n - m..]);
      assert Batches(working, size)[1..] == Batches(rest, size);
    }
  }

  /** There are ceil(n / size) batches. */
  lemma {:induction false} BatchCount<T>(working: seq<T>, size: nat)
    requires size >= 1
    ensures |Batches(working, size)| == CeilDiv(|working|, size)
    decreases |working|
  {
    if working != [] {
      var rest := PopBatch(working, size).1;
      var n := |working|;
      BatchCount(rest, size);
      assert |Batches(working, size)| == 1 + |Batches(rest, size)|;
      if size < n {
        assert |rest| == n - size;
        CeilDivStep(|rest|, size);
      } else {
        assert rest == [];
        CeilDivOne(n, size);
      }
    }
  }

  /** Eighteen destinations of 20 uL with a 300 uL pipette: the capacity count
      is 13, and the even split serves them as two batches of nine. */
  lemma EighteenWellsEvenSplit<T>(working: seq<T>)
    requires |working| == 18
    ensures MaxWellsPerAspirate(300.0, 20.0) == 13
    ensures DistributeSize(300.0, 20.0, 18, true) == Ok(9)
    ensures |Batches(working, 9)| == 2
    ensures |Batches(working, 9)[0]| == 9 && |Batches(working, 9)[1]| == 9
  {
    BatchCount(working, 9);
    BatchesReverse(working, 9);
    var bs := Batches(working, 9);
    assert Flatten(bs) == bs[0] + bs[1] by {
      assert bs[1..][1..] == [];
    }
  }
}
