/** Convergence control of an evolution epoch: patience, mutation ramp, early stop. */
module EarlyStop {
  import opened Numeric

  datatype Hyper = Hyper(
    popSize: int, maxGenerations: int, eliteCount: nat,
    mutationProbability: real, mutationScale: real, mutationProbabilityMax: real, mutationScaleMax: real,
    mutationRampFactor: real, earlyStopPatience: int, earlyStopMinDelta: real, tournamentSize: int)

  const DEFAULTS := Hyper(300, 25, 8, 0.15, 1.0, 0.55, 3.0, 1.25, 5, 0.001, 3)

  datatype Control = Control(bestEver: real, patience: int, mutProb: real, mutScale: real)

  function StartControl(h: Hyper, best: real): Control {
    Control(best, 0, h.mutationProbability, h.mutationScale)
  }

  predicate Improves(h: Hyper, c: Control, best: real) {
    best - c.bestEver >= h.earlyStopMinDelta
  }

  /** What one generation's best fitness does to the control state. */
  function Observe(h: Hyper, c: Control, best: real): Control {
    var c' := if Improves(h, c, best) then c.(bestEver := best, patience := 0) else c.(patience := c.patience + 1);
    if c'.patience >= h.earlyStopPatience
    then c'.(mutProb := Min(c'.mutProb * h.mutationRampFactor, h.mutationProbabilityMax),
             mutScale := Min(c'.mutScale * h.mutationRampFactor, h.mutationScaleMax))
    else c'
  }

  predicate Stops(h: Hyper, c: Control) {
    && c.patience >= h.earlyStopPatience
    && c.mutProb >= h.mutationProbabilityMax && c.mutScale >= h.mutationScaleMax
  }

  /** The control state after a whole sequence of observations. */
  function After(h: Hyper, first: real, bests: seq<real>): Control {
    if |bests| == 0 then StartControl(h, first)
    else Observe(h, After(h, first, bests[..|bests| - 1]), bests[|bests| - 1])
  }

  /** How many observations reset the patience. */
  function Resets(h: Hyper, first: real, bests: seq<real>): nat {
    if |bests| == 0 then 0
    else
      var init := bests[..|bests| - 1];
      Resets(h, first, init) + if Improves(h, After(h, first, init), bests[|bests| - 1]) then 1 else 0
  }

  /** How many observations ramped the mutation. */
  ghost function Ramps(h: Hyper, first: real, bests: seq<real>): nat {
    if |bests| == 0 then 0
    else Ramps(h, first, bests[..|bests| - 1]) + if After(h, first, bests).patience >= h.earlyStopPatience then 1 else 0
  }

  /** No observation before the last one stopped the epoch. */
  ghost predicate RunsThrough(h: Hyper, first: real, bests: seq<real>) {
    forall n :: 0 < n < |bests| ==> !Stops(h, After(h, first, bests[..n]))
  }

  /** The ramp after q steps from the default start. */
  function Ramp(v: real, cap: real, q: nat): real {
    if q == 0 then v else Min(Ramp(v, cap, q - 1) * 1.25, cap)
  }

  lemma {:induction false} RampValue(first: real, bests: seq<real>)
    ensures After(DEFAULTS, first, bests).mutProb == Ramp(0.15, 0.55, Ramps(DEFAULTS, first, bests))
    ensures After(DEFAULTS, first, bests).mutScale == Ramp(1.0, 3.0, Ramps(DEFAULTS, first, bests))
  {
    if |bests| == 0 {
    } else {
      RampValue(first, bests[..|bests| - 1]);
    }
  }

  lemma {:induction false} RampIsFull(q: nat)
    requires q >= 6
    ensures Ramp(0.15, 0.55, q) == 0.55 && Ramp(1.0, 3.0, q) == 3.0
  {
    if q == 6 {
      assert Ramp(0.15, 0.55, 1) == 0.1875 && Ramp(1.0, 3.0, 1) == 1.25;
      assert Ramp(0.15, 0.55, 2) == 0.234375 && Ramp(1.0, 3.0, 2) == 1.5625;
      assert Ramp(0.15, 0.55, 3) == 0.29296875 && Ramp(1.0, 3.0, 3) == 1.953125;
      assert Ramp(0.15, 0.55, 4) == 0.3662109375 && Ramp(1.0, 3.0, 4) == 2.44140625;
      assert Ramp(0.15, 0.55, 5) == 0.457763671875 && Ramp(1.0, 3.0, 5) == 3.0;
    } else {
      RampIsFull(q - 1);
    }
  }

  /** Each reset pays for itself and four more observations before ramping starts again. */
  lemma {:induction false} Amortised(first: real, bests: seq<real>)
    ensures var c := After(DEFAULTS, first, bests);
      && c.patience >= 0
      && |bests| - Ramps(DEFAULTS, first, bests)
         <= 5 * Resets(DEFAULTS, first, bests) + (if c.patience < 4 then c.patience else 4)
  {
    if |bests| == 0 {
    } else {
      Amortised(first, bests[..|bests| - 1]);
    }
  }

  lemma PrefixRunsThrough(first: real, bests: seq<real>)
    requires |bests| > 0 && RunsThrough(DEFAULTS, first, bests)
    ensures RunsThrough(DEFAULTS, first, bests[..|bests| - 1])
  {
    var init := bests[..|bests| - 1];
    forall n | 0 < n < |init|
      ensures !Stops(DEFAULTS, After(DEFAULTS, first, init[..n]))
    {
      assert init[..n] == bests[..n];
    }
  }

  /** Six ramps stop the epoch at the sixth: a run that has not stopped has ramped less. */
  lemma {:induction false} RampedRecently(first: real, bests: seq<real>)
    requires |bests| > 0 && RunsThrough(DEFAULTS, first, bests)
    requires !Stops(DEFAULTS, After(DEFAULTS, first, bests))
    ensures Ramps(DEFAULTS, first, bests) <= 5
  {
    var init := bests[..|bests| - 1];
    if |init| == 0 {
    } else {
      PrefixRunsThrough(first, bests);
      RampedRecently(first, init);
    }
    RampValue(first, bests);
    if Ramps(DEFAULTS, first, bests) >= 6 {
      RampIsFull(Ramps(DEFAULTS, first, bests));
    }
  }

  /** An epoch that has not stopped early before its last generation has run at most
      10 + 5r generations, where r counts patience resets. */
  lemma EarlyStopBound(first: real, bests: seq<real>)
    requires RunsThrough(DEFAULTS, first, bests)
    ensures |bests| <= 10 + 5 * Resets(DEFAULTS, first, bests)
  {
    Amortised(first, bests);
    if |bests| > 1 {
      var init := bests[..|bests| - 1];
      Amortised(first, init);
      assert !Stops(DEFAULTS, After(DEFAULTS, first, init));
      PrefixRunsThrough(first, bests);
      RampedRecently(first, init);
    }
  }

  lemma {:induction false} Stagnation(first: real, bests: seq<real>)
    requires Resets(DEFAULTS, first, bests) == 0
    ensures After(DEFAULTS, first, bests).patience == |bests|
    ensures Ramps(DEFAULTS, first, bests) == if |bests| < 5 then 0 else |bests| - 4
  {
    if |bests| == 0 {
    } else {
      Stagnation(first, bests[..|bests| - 1]);
    }
  }

  lemma {:induction false} PrefixWithoutResets(first: real, bests: seq<real>, n: nat)
    requires n <= |bests| && Resets(DEFAULTS, first, bests) == 0
    ensures Resets(DEFAULTS, first, bests[..n]) == 0
  {
    if n == |bests| {
      assert bests[..n] == bests;
    } else {
      var init := bests[..|bests| - 1];
      assert init[..n] == bests[..n];
      PrefixWithoutResets(first, init, n);
    }
  }

  lemma {:induction false} RampIsNotFull(q: nat)
    requires q <= 5
    ensures Ramp(0.15, 0.55, q) < 0.55
  {
    assert Ramp(0.15, 0.55, 1) == 0.1875;
    assert Ramp(0.15, 0.55, 2) == 0.234375;
    assert Ramp(0.15, 0.55, 3) == 0.29296875;
    assert Ramp(0.15, 0.55, 4) == 0.3662109375;
    assert Ramp(0.15, 0.55, 5) == 0.457763671875;
  }

  /** Without any improvement the tenth generation is the last, and no earlier one is: the
      bound is reached. */
  lemma StagnationStopsAtTen(first: real, bests: seq<real>)
    requires |bests| == 10 && Resets(DEFAULTS, first, bests) == 0
    ensures Stops(DEFAULTS, After(DEFAULTS, first, bests))
    ensures RunsThrough(DEFAULTS, first, bests)
  {
    Stagnation(first, bests);
    RampValue(first, bests);
    RampIsFull(6);
    forall n | 0 < n < |bests|
      ensures !Stops(DEFAULTS, After(DEFAULTS, first, bests[..n]))
    {
      PrefixWithoutResets(first, bests, n);
      Stagnation(first, bests[..n]);
      RampValue(first, bests[..n]);
      RampIsNotFull(Ramps(DEFAULTS, first, bests[..n]));
      hide Ramp, Ramps, After, Resets;
    }
  }

  /** Every reset raises the best fitness on record by at least the minimum delta. */
  lemma {:induction false} ResetsRaiseBest(first: real, bests: seq<real>)
    ensures Resets(DEFAULTS, first, bests) as real * 0.001 <= After(DEFAULTS, first, bests).bestEver - first
  {
    if |bests| == 0 {
    } else {
      ResetsRaiseBest(first, bests[..|bests| - 1]);
    }
  }

  /** The ramps never go back and never pass their caps. */
  lemma {:induction false} RampsGrow(first: real, bests: seq<real>, n: nat)
    requires n <= |bests|
    ensures 0.15 <= After(DEFAULTS, first, bests[..n]).mutProb <= After(DEFAULTS, first, bests).mutProb <= 0.55
    ensures 1.0 <= After(DEFAULTS, first, bests[..n]).mutScale <= After(DEFAULTS, first, bests).mutScale <= 3.0
  {
    if n == |bests| {
      assert bests[..n] == bests;
      if n > 0 {
        RampsGrow(first, bests[..n - 1], n - 1);
      }
    } else {
      var init := bests[..|bests| - 1];
      assert init[..n] == bests[..n];
      RampsGrow(first, init, n);
    }
  }

  /** A rise of exactly the minimum delta is an improvement, anything less is not. */
  lemma SmallestImprovement(c: Control, best: real)
    ensures best >= c.bestEver + 0.001 ==>
              Observe(DEFAULTS, c, best).patience == 0 && Observe(DEFAULTS, c, best).bestEver == best
    ensures best < c.bestEver + 0.001 ==>
              && Observe(DEFAULTS, c, best).patience == c.patience + 1
              && Observe(DEFAULTS, c, best).bestEver == c.bestEver
  {}
}
