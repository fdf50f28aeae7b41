/** How an evolution step picks the next transition: a requested override
    first, then a weighted draw over the cumulative probabilities, and as a
    last resort the most probable transition.  The random draw is a parameter. */
module Selection {
  import opened Models

  /** Sum of the probabilities of the first `n` transitions. */
  function Cumulative(ts: seq<Transition>, n: nat): real
    requires n <= |ts|
  {
    if n == 0 then 0.0 else Cumulative(ts, n - 1) + ts[n - 1].probability
  }

  /** The running total once transition `j` has been added. */
  function TotalThrough(ts: seq<Transition>, j: nat): real
    requires j < |ts|
  {
    Cumulative(ts, j + 1)
  }

  /** `k` is the first transition that leads to `target`. */
  ghost predicate IsFirstTarget(ts: seq<Transition>, target: string, k: nat) {
    k < |ts| && ts[k].toId == target && forall j | 0 <= j < k :: ts[j].toId != target
  }

  /** `k` is the first transition whose cumulative probability reaches `r`. */
  ghost predicate IsFirstCovering(ts: seq<Transition>, r: real, k: nat) {
    k < |ts| && r <= TotalThrough(ts, k) && forall j | 0 <= j < k :: r > TotalThrough(ts, j)
  }

  /** `k` is the first transition of maximal probability (Python's `max`). */
  ghost predicate IsFirstMax(ts: seq<Transition>, k: nat) {
    && k < |ts|
    && (forall j | 0 <= j < |ts| :: ts[j].probability <= ts[k].probability)
    && (forall j | 0 <= j < k :: ts[j].probability < ts[k].probability)
  }

  /** An override takes effect when it is a non-empty id (Python truthiness)
      that some transition leads to. */
  ghost predicate OverrideApplies(ts: seq<Transition>, override: Option<string>) {
    override.Some? && override.value != "" && exists j | 0 <= j < |ts| :: ts[j].toId == override.value
  }

  /** Some cumulative probability reaches the draw. */
  ghost predicate DrawCovered(ts: seq<Transition>, r: real) {
    exists j | 0 <= j < |ts| :: r <= TotalThrough(ts, j)
  }

  /** The three-stage selection rule of an evolution step. */
  ghost predicate Chosen(ts: seq<Transition>, override: Option<string>, r: real, k: nat) {
    if OverrideApplies(ts, override) then IsFirstTarget(ts, override.value, k)
    else if DrawCovered(ts, r) then IsFirstCovering(ts, r, k)
    else IsFirstMax(ts, k)
  }

  /** The generator search for the first transition leading to `target`. */
  method FindOverride(ts: seq<Transition>, target: string) returns (k: Option<nat>)
    ensures k.Some? ==> IsFirstTarget(ts, target, k.value)
    ensures k.None? ==> forall j | 0 <= j < |ts| :: ts[j].toId != target
  {
    var i := 0;
    while i < |ts|
      invariant 0 <= i <= |ts|
      invariant forall j | 0 <= j < i :: ts[j].toId != target
    {
      if ts[i].toId == target {
        return Some(i);
      }
      i := i + 1;
    }
    return None;
  }

  /** The weighted draw: walk the transitions accumulating probability and stop
      at the first one whose running total reaches `r`. */
  method WeightedDraw(ts: seq<Transition>, r: real) returns (k: Option<nat>)
    ensures k.Some? ==> IsFirstCovering(ts, r, k.value)
    ensures k.None? ==> forall j | 0 <= j < |ts| :: r > TotalThrough(ts, j)
  {
    var cumulative := 0.0;
    var i := 0;
    while i < |ts|
      invariant 0 <= i <= |ts|
      invariant cumulative == Cumulative(ts, i)
      invariant forall j | 0 <= j < i :: r > TotalThrough(ts, j)
    {
      cumulative := cumulative + ts[i].probability;
      if r <= cumulative {
        return Some(i);
      }
      i := i + 1;
    }
    return None;
  }

  /** Python's `max` by probability: the first transition of maximal probability. */
  method MostProbable(ts: seq<Transition>) returns (k: nat)
    requires ts != []
    ensures IsFirstMax(ts, k)
  {
    k := 0;
    var i := 1;
    while i < |ts|
      invariant 1 <= i <= |ts| && k < i
      invariant forall j | 0 <= j < i :: ts[j].probability <= ts[k].probability
      invariant forall j | 0 <= j < k :: ts[j].probability < ts[k].probability
    {
      if ts[i].probability > ts[k].probability {
        k := i;
      }
      i := i + 1;
    }
  }

  /** The selection of an evolution step: always one of the given transitions,
      chosen by the three-stage rule. */
  method ChooseTransition(ts: seq<Transition>, override: Option<string>, r: real) returns (k: nat)
    requires ts != []
    ensures k < |ts|
    ensures Chosen(ts, override, r, k)
  {
    var picked: Option<nat> := None;
    if override.Some? && override.value != "" {
      picked := FindOverride(ts, override.value);
    }
    if picked.None? {
      picked := WeightedDraw(ts, r);
      if picked.None? {
        k := MostProbable(ts);
        return;
      }
    }
    k := picked.value;
  }

  /** The selection rule picks one transition only. */
  lemma ChosenIsUnique(ts: seq<Transition>, override: Option<string>, r: real, k1: nat, k2: nat)
    requires Chosen(ts, override, r, k1) && Chosen(ts, override, r, k2)
    ensures k1 == k2
  {
    if OverrideApplies(ts, override) {
    } else if DrawCovered(ts, r) {
    } else {
      assert ts[k1].probability == ts[k2].probability;
    }
  }

  /** With non-negative probabilities the running total never decreases. */
  lemma {:induction false} CumulativeMonotone(ts: seq<Transition>, i: nat, j: nat)
    requires i <= j <= |ts|
    requires forall t | t in ts :: t.probability >= 0.0
    ensures Cumulative(ts, i) <= Cumulative(ts, j)
    decreases j - i
  {
    if i < j {
      CumulativeMonotone(ts, i, j - 1);
      assert ts[j - 1] in ts;
    }
  }

  /** With non-negative probabilities the max fallback is taken exactly when the
      draw exceeds the total probability of all transitions. */
  lemma FallbackIffDrawExceedsTotal(ts: seq<Transition>, r: real)
    requires ts != []
    requires forall t | t in ts :: t.probability >= 0.0
    ensures !DrawCovered(ts, r) <==> r > Cumulative(ts, |ts|)
  {
    if r > Cumulative(ts, |ts|) {
      forall j | 0 <= j < |ts| ensures r > TotalThrough(ts, j) {
        CumulativeMonotone(ts, j + 1, |ts|);
      }
    } else {
      assert r <= TotalThrough(ts, |ts| - 1);
    }
  }

  /** A single transition is always the one chosen, whatever the override and the draw. */
  lemma SingleTransitionAlwaysChosen(t: Transition, override: Option<string>, r: real, k: nat)
    requires Chosen([t], override, r, k)
    ensures k == 0
  {
  }
}
