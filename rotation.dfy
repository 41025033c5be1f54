/** The reservoir rotation of the buffer step: buffer is added to each
    well of the dilution series from one reservoir well, and the routine
    moves on to the next reservoir well once the current one has served
    enough aspirates. */
module Rotation {
  import opened Outcomes

  /** The least integer at or above x. */
  function Ceil(x: real): (c: int)
    ensures x <= c as real < x + 1.0
  {
    -((-x).Floor)
  }

  /** The aspirate count at which the routine switches well: the least
      count a with a >= limit - 1, where limit is the number of aspirates a
      reservoir well is meant to supply. */
  function Threshold(limit: real): nat
  {
    if limit - 1.0 <= 0.0 then 0 else Ceil(limit - 1.0)
  }

  /** The switch test on whole counts is a test against the threshold. */
  lemma ThresholdIsTest(limit: real, a: nat)
    ensures a as real >= limit - 1.0 <==> a >= Threshold(limit)
  {
    if limit - 1.0 > 0.0 {
      var c := Ceil(limit - 1.0);
      if a >= c {
        assert a as real >= c as real;
      } else {
        assert a as real <= c as real - 1.0;
      }
    }
  }

  /** The reservoir well (counted from the first) that destination k draws
      from: with a positive threshold c, k div c. With a threshold of zero
      the switch test already holds before the first aspirate, so every
      destination moves on to a new well. */
  function SourceOf(k: nat, c: nat): nat
    decreases k
  {
    if c == 0 then k + 1
    else if k < c then 0
    else SourceOf(k - c, c) + 1
  }

  /** The aspirate counter once destination k has been served, for a
      positive threshold c: 1 + (k mod c). */
  function Served(k: nat, c: nat): nat
    requires c > 0
    decreases k
  {
    if k < c then k + 1 else Served(k - c, c)
  }

  /** The reservoir well per destination, or the error of an iterator that
      runs out: the first well is taken before any destination, and every
      switch takes one more. */
  function BufferPlan<T>(sources: seq<T>, destinations: nat, limit: real): (r: Result<seq<T>>)
    ensures r.Ok? ==> |r.value| == destinations
  {
    var c := Threshold(limit);
    if |sources| == 0 || exists k | 0 <= k < destinations :: SourceOf(k, c) >= |sources| then
      Err(SourcesExhausted)
    else
      Ok(seq(destinations, k requires 0 <= k < destinations => sources[SourceOf(k, c)]))
  }

  /** One more destination: the counter wraps to 1 and the well advances
      exactly when the counter had reached the threshold. */
  lemma {:induction false} ServedNext(k: nat, c: nat)
    requires c > 0
    ensures 1 <= Served(k, c) <= c
    ensures Served(k + 1, c) == if Served(k, c) == c then 1 else Served(k, c) + 1
    ensures SourceOf(k + 1, c) == if Served(k, c) == c then SourceOf(k, c) + 1 else SourceOf(k, c)
    decreases k
  {
    if k >= c {
      ServedNext(k - c, c);
      assert k + 1 - c == (k - c) + 1;
    }
  }

  /** Reservoir wells are used in order, none is skipped: the well of each
      destination is the previous one's or the next. */
  lemma SourcesInOrder(k: nat, c: nat)
    ensures SourceOf(k, c) <= SourceOf(k + 1, c) <= SourceOf(k, c) + 1
  {
    if c > 0 {
      ServedNext(k, c);
    }
  }

  /** With a positive threshold every reservoir well serves exactly c
      consecutive destinations. */
  lemma SourceServesThreshold(k: nat, c: nat)
    requires c > 0
    ensures SourceOf(k + c, c) == SourceOf(k, c) + 1
  {
    assert k + c - c == k;
  }

  /** The buffer step's reservoir loop: the aspirate counter, the switch
      when it reaches the threshold, and the reservoir iterator's next(). */
  method BufferSources<T>(sources: seq<T>, destinations: nat, limit: real) returns (r: Result<seq<T>>)
    ensures r == BufferPlan(sources, destinations, limit)
  {
    ghost var c := Threshold(limit);
    // starting well
    if |sources| == 0 {
      return Err(SourcesExhausted);
    }
    var source := 0;
    var aspirates: nat := 0;
    var plan: seq<T> := [];
    ghost var used: seq<nat> := [];
    for k := 0 to destinations
      invariant |plan| == k && source < |sources|
      invariant |used| == k
      invariant forall j {:trigger used[j]} | 0 <= j < k ::
        used[j] == SourceOf(j, c) && used[j] < |sources| && plan[j] == sources[used[j]]
      invariant k == 0 ==> source == 0 && aspirates == 0
      invariant k > 0 ==> source == SourceOf(k - 1, c)
      invariant k > 0 && c > 0 ==> aspirates == Served(k - 1, c)
      invariant k > 0 && c == 0 ==> aspirates == 1
    {
      ThresholdIsTest(limit, aspirates);
      CounterStep(k, c, source, aspirates);
      // if the volume is too low, go to the next well
      if aspirates as real >= limit - 1.0 {
        if source + 1 >= |sources| {
          return Err(SourcesExhausted);
        }
        source := source + 1;
        aspirates := 0;
      }
      assert source == SourceOf(k, c);
      plan := plan + [sources[source]];
      used := used + [source];
      aspirates := aspirates + 1;
    }
    forall k | 0 <= k < destinations
      ensures SourceOf(k, c) < |sources| && plan[k] == sources[SourceOf(k, c)]
    {
      assert used[k] == SourceOf(k, c);
    }
    assert plan == seq(destinations, k requires 0 <= k < destinations => sources[SourceOf(k, c)]);
    return Ok(plan);
  }

  /** The counter state before destination k decides its well: a switch
      exactly when the counter has reached the threshold. */
  lemma CounterStep(k: nat, c: nat, source: nat, aspirates: nat)
    requires k == 0 ==> source == 0 && aspirates == 0
    requires k > 0 ==> source == SourceOf(k - 1, c)
    requires k > 0 && c > 0 ==> aspirates == Served(k - 1, c)
    requires k > 0 && c == 0 ==> aspirates == 1
    ensures SourceOf(k, c) == if aspirates >= c then source + 1 else source
    ensures c > 0 ==> Served(k, c) == (if aspirates >= c then 0 else aspirates) + 1
  {
    if k > 0 && c > 0 {
      ServedNext(k - 1, c);
    }
  }

  /** The iterator runs out exactly when the last destination's well is missing. */
  lemma ExhaustedAtLast<T>(sources: seq<T>, destinations: nat, limit: real)
    requires |sources| > 0 && destinations > 0
    ensures BufferPlan(sources, destinations, limit).Err?
        <==> SourceOf(destinations - 1, Threshold(limit)) >= |sources|
  {
    var c := Threshold(limit);
    if k :| 0 <= k < destinations && SourceOf(k, c) >= |sources| {
      MissingSourceStays(k, destinations, c, |sources|);
    }
  }

  /** Once a destination's reservoir well is missing, so is the last one's. */
  lemma {:induction false} MissingSourceStays(k: nat, destinations: nat, c: nat, n: nat)
    requires k < destinations
    requires SourceOf(k, c) >= n
    ensures SourceOf(destinations - 1, c) >= n
    decreases destinations - k
  {
    if k + 1 < destinations {
      SourcesInOrder(k, c);
      MissingSourceStays(k + 1, destinations, c, n);
    }
  }

  /** The assay's buffer step: 300 uL into each of the seven wells after
      the first of an eight-well series, from two reservoir wells of
      10000 uL; the first serves four wells and the second the other three. */
  lemma AssayBufferPlan<T>(a: T, b: T)
    ensures BufferPlan([a, b], 7, 10000.0 / (300.0 * 8.0)) == Ok([a, a, a, a, b, b, b])
  {
    var limit := 10000.0 / (300.0 * 8.0);
    assert Ceil(limit - 1.0) == 4;
    assert Threshold(limit) == 4;
    assert forall k | 0 <= k < 7 :: SourceOf(k, 4) == if k < 4 then 0 else 1;
    var plan := seq(7, k requires 0 <= k < 7 => [a, b][SourceOf(k, 4)]);
    assert plan == [a, a, a, a, b, b, b];
  }
}
