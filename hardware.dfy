/** The pipette as the transfer engine sees it: a trace of the hardware
    actions it is asked to perform, and the tip state those actions imply
    (whether a tip is mounted and how much liquid it holds). Motion, speed
    and the hardware's own error checks are outside the model. */
module Hardware {
  import opened Outcomes
  import opened Labware

  /** Default touch_tip speed of the robot, in mm/s; the protocol uses a third
      of it where droplets must be knocked off gently. */
  const DefaultTouchSpeed: real := 60.0
  const SlowTouchSpeed: real := 20.0

  /** One hardware action. A dispense or blow-out without a place happens
      wherever the pipette was last moved to. */
  datatype Action =
    | PickUpTip
    | DropTip
    | Aspirate(volume: real, source: Place, rate: real)
    | Dispense(volume: real, target: Option<Place>, rate: real)
    | BlowOut(target: Option<Place>)
    | TouchTip(speed: real)
    | MoveTo(destination: Place)
    | Delay(seconds: real)

  /** Whether a tip is mounted, and the liquid in it (current_volume). */
  datatype TipState = TipState(hasTip: bool, volume: real)

  /** What one action does to the tip: a fresh or dropped tip is empty, an
      aspirate adds and a dispense removes its volume, a blow-out empties the
      tip; moves, touches and delays change nothing. */
  function Step(s: TipState, a: Action): TipState
  {
    match a
    case PickUpTip => TipState(true, 0.0)
    case DropTip => TipState(false, 0.0)
    case Aspirate(v, _, _) => s.(volume := s.volume + v)
    case Dispense(v, _, _) => s.(volume := s.volume - v)
    case BlowOut(_) => s.(volume := 0.0)
    case _ => s
  }

  /** The tip state after a trace of actions. */
  function Replay(s: TipState, actions: seq<Action>): TipState
    decreases |actions|
  {
    if actions == [] then s else Step(Replay(s, actions[..|actions| - 1]), actions[|actions| - 1])
  }

  /** Logging b and then c logs b + c. */
  lemma LogAppend(a: seq<Action>, b: seq<Action>, c: seq<Action>)
    ensures a + b + c == a + (b + c)
  {
  }

  /** Replaying two traces one after the other is replaying their concatenation. */
  lemma {:induction false} ReplayAppend(s: TipState, a: seq<Action>, b: seq<Action>)
    ensures Replay(s, a + b) == Replay(Replay(s, a), b)
    decreases |b|
  {
    if b != [] {
      var b' := b[..|b| - 1];
      ReplayAppend(s, a, b');
      assert (a + b)[..|a + b| - 1] == a + b';
      assert (a + b)[|a + b| - 1] == b[|b| - 1];
    } else {
      assert a + b == a;
    }
  }

  /** An action that only moves, touches or waits. */
  predicate Inert(a: Action)
  {
    a.MoveTo? || a.TouchTip? || a.Delay?
  }

  /** A trace of moves, touches and delays leaves the tip as it was. */
  lemma {:induction false} ReplayInert(s: TipState, actions: seq<Action>)
    requires forall i | 0 <= i < |actions| :: Inert(actions[i])
    ensures Replay(s, actions) == s
    decreases |actions|
  {
    if actions != [] {
      ReplayInert(s, actions[..|actions| - 1]);
    }
  }

  /** A trace that neither picks up nor drops a tip keeps the tip mounted or not. */
  lemma {:induction false} ReplayKeepsTip(s: TipState, actions: seq<Action>)
    requires forall i | 0 <= i < |actions| :: !actions[i].PickUpTip? && !actions[i].DropTip?
    ensures Replay(s, actions).hasTip == s.hasTip
    decreases |actions|
  {
    if actions != [] {
      ReplayKeepsTip(s, actions[..|actions| - 1]);
    }
  }

  /** The fixed characteristics of a pipette: its model name, its volume range
      in microlitres and its number of channels. */
  datatype PipetteInfo = PipetteInfo(name: string, minVolume: real, maxVolume: real, channels: nat)

  /** A pipette mounted on the robot: its fixed characteristics, its tip state,
      and the trace of every action performed with it. */
  class Pipette {
    const name: string
    const minVolume: real
    const maxVolume: real
    const channels: nat
    var hasTip: bool
    var currentVolume: real
    var log: seq<Action>
    /** The tip state before the first logged action. */
    ghost const initial: TipState

    function Info(): PipetteInfo
    {
      PipetteInfo(name, minVolume, maxVolume, channels)
    }

    function State(): TipState
      reads this
    {
      TipState(hasTip, currentVolume)
    }

    /** The tip state is the one the logged actions lead to. */
    ghost predicate Valid()
      reads this
    {
      && 0.0 < minVolume <= maxVolume
      && State() == Replay(initial, log)
    }

    /** A pipette with no tip, nothing logged yet. */
    constructor (name: string, minVolume: real, maxVolume: real, channels: nat)
      requires 0.0 < minVolume <= maxVolume
      ensures Valid()
      ensures this.name == name && this.minVolume == minVolume && this.maxVolume == maxVolume
      ensures this.channels == channels
      ensures State() == TipState(false, 0.0) && log == []
    {
      this.name := name;
      this.minVolume := minVolume;
      this.maxVolume := maxVolume;
      this.channels := channels;
      hasTip := false;
      currentVolume := 0.0;
      log := [];
      initial := TipState(false, 0.0);
    }

    /** Performs one action: it is logged and the tip state follows it. */
    method Perform(a: Action)
      requires Valid()
      modifies this
      ensures Valid()
      ensures log == old(log) + [a]
      ensures State() == Step(old(State()), a)
    {
      var next := Step(State(), a);
      hasTip, currentVolume := next.hasTip, next.volume;
      log := log + [a];
      assert log[..|log| - 1] == old(log);
    }

    /** Performs a trace of actions in order. */
    method PerformAll(actions: seq<Action>)
      requires Valid()
      modifies this
      ensures Valid()
      ensures log == old(log) + actions
      ensures State() == Replay(old(State()), actions)
    {
      var i := 0;
      while i < |actions|
        invariant 0 <= i <= |actions|
        invariant Valid()
        invariant log == old(log) + actions[..i]
        invariant State() == Replay(old(State()), actions[..i])
      {
        assert actions[..i + 1][..i] == actions[..i];
        Perform(actions[i]);
        i := i + 1;
      }
      assert actions[..i] == actions;
    }
  }
}
