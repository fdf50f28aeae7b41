/** The list of possible next stages that the engine publishes after each step:
    one prediction per transition into a catalogue technique, the most likely
    one tracked on the way, and the list sorted by probability, highest first. */
module Forecast {
  import opened Models
  import opened Catalog

  /** The prediction a transition contributes, when its target is in the
      catalogue.  Its contract only states this branch, for the callers' proofs. */
  function PredictionFor(t: Transition): (ps: seq<NextStagePrediction>)
    ensures t.toId !in Techniques ==> ps == []
    ensures t.toId in Techniques ==>
      ps == [NextStagePrediction(Techniques[t.toId].id, Techniques[t.toId].name, t.probability)]
  {
    if t.toId in Techniques then
      var target := Techniques[t.toId];
      [NextStagePrediction(target.id, target.name, t.probability)]
    else []
  }

  /** The predictions of a list of transitions, in transition order. */
  function PredictionsOf(ts: seq<Transition>): (ps: seq<NextStagePrediction>)
    ensures |ps| <= |ts|
  {
    if ts == [] then [] else PredictionsOf(ts[..|ts| - 1]) + PredictionFor(ts[|ts| - 1])
  }

  /** When every target is catalogued, there is one prediction per transition,
      in transition order: entry `i` carries the id and name of transition
      `i`'s target and its probability. */
  lemma {:induction false} PredictionsInTransitionOrder(ts: seq<Transition>)
    requires forall t | t in ts :: t.toId in Techniques
    ensures |PredictionsOf(ts)| == |ts|
    ensures forall i | 0 <= i < |ts| ::
      PredictionsOf(ts)[i] == NextStagePrediction(ts[i].toId, Techniques[ts[i].toId].name, ts[i].probability)
    decreases |ts|
  {
    if ts != [] {
      var init := ts[..|ts| - 1];
      assert forall t | t in init :: t in ts;
      PredictionsInTransitionOrder(init);
      TechniquesKeyedById();
      assert ts[|ts| - 1] in ts;
    }
  }

  /** The most likely stage for the insight prompt: the name and probability of
      the first prediction that beats every earlier one and 0, starting from
      ("Unknown", 0). */
  function TopStage(ps: seq<NextStagePrediction>): (top: (string, real))
    ensures top.1 >= 0.0
    ensures forall j | 0 <= j < |ps| :: ps[j].probability <= top.1
    ensures top.1 == 0.0 ==> top.0 == "Unknown"
  {
    if ps == [] then ("Unknown", 0.0)
    else
      var best := TopStage(ps[..|ps| - 1]);
      var p := ps[|ps| - 1];
      if p.probability > best.1 then (p.techniqueName, p.probability) else best
  }

  /** `i` is the first prediction of maximal probability. */
  ghost predicate IsFirstMaxStage(ps: seq<NextStagePrediction>, i: nat) {
    && i < |ps|
    && (forall j | 0 <= j < |ps| :: ps[j].probability <= ps[i].probability)
    && (forall j | 0 <= j < i :: ps[j].probability < ps[i].probability)
  }

  ghost predicate SortedByProbabilityDesc(ps: seq<NextStagePrediction>) {
    forall i, j | 0 <= i < j < |ps| :: ps[i].probability >= ps[j].probability
  }

  /** Insert `p` before the first element it is at least as likely as; an
      earlier element is inserted before later ones of equal probability. */
  function InsertByProbability(p: NextStagePrediction, s: seq<NextStagePrediction>): (r: seq<NextStagePrediction>)
    ensures multiset(r) == multiset(s) + multiset{p}
    ensures |r| == |s| + 1
  {
    if s == [] || p.probability >= s[0].probability then [p] + s
    else
      assert s == [s[0]] + s[1..];
      [s[0]] + InsertByProbability(p, s[1..])
  }

  /** The head after an insertion is `p` unless the old head is strictly more likely. */
  lemma InsertHead(p: NextStagePrediction, s: seq<NextStagePrediction>)
    ensures InsertByProbability(p, s)[0] == (if s == [] || p.probability >= s[0].probability then p else s[0])
  {
  }

  /** An insertion adds `p` and nothing else. */
  lemma {:induction false} InsertElements(p: NextStagePrediction, s: seq<NextStagePrediction>)
    ensures forall x | x in InsertByProbability(p, s) :: x == p || x in s
  {
    if !(s == [] || p.probability >= s[0].probability) {
      InsertElements(p, s[1..]);
      assert forall x | x in s[1..] :: x in s;
    }
  }

  /** Inserting into a sorted list keeps it sorted. */
  lemma {:induction false} InsertKeepsSorted(p: NextStagePrediction, s: seq<NextStagePrediction>)
    requires SortedByProbabilityDesc(s)
    ensures SortedByProbabilityDesc(InsertByProbability(p, s))
  {
    var r := InsertByProbability(p, s);
    if s == [] || p.probability >= s[0].probability {
      assert r == [p] + s;
      forall i, j | 0 <= i < j < |r| ensures r[i].probability >= r[j].probability {
        assert r[j] == s[j - 1];
        if i > 0 {
          assert r[i] == s[i - 1];
        }
      }
    } else {
      var tail := s[1..];
      var rest := InsertByProbability(p, tail);
      assert r == [s[0]] + rest;
      assert SortedByProbabilityDesc(tail) by {
        forall i, j | 0 <= i < j < |tail| ensures tail[i].probability >= tail[j].probability {
          assert tail[i] == s[i + 1] && tail[j] == s[j + 1];
        }
      }
      InsertKeepsSorted(p, tail);
      InsertElements(p, tail);
      forall j | 0 <= j < |rest| ensures s[0].probability >= rest[j].probability {
        assert rest[j] in rest;
        if rest[j] != p {
          var k :| 0 <= k < |tail| && tail[k] == rest[j];
          assert s[k + 1] == rest[j];
        }
      }
      forall i, j | 0 <= i < j < |r| ensures r[i].probability >= r[j].probability {
        assert r[j] == rest[j - 1];
        if i > 0 {
          assert r[i] == rest[i - 1];
        }
      }
    }
  }

  /** Python's `sorted(predictions, key=probability, reverse=True)`: a stable
      sort, highest probability first. */
  function SortByProbabilityDesc(ps: seq<NextStagePrediction>): (r: seq<NextStagePrediction>)
    ensures multiset(r) == multiset(ps)
    ensures |r| == |ps|
  {
    if ps == [] then []
    else
      assert ps == [ps[0]] + ps[1..];
      InsertByProbability(ps[0], SortByProbabilityDesc(ps[1..]))
  }

  /** The sorted list is ordered by probability, highest first. */
  lemma {:induction false} SortIsDescending(ps: seq<NextStagePrediction>)
    ensures SortedByProbabilityDesc(SortByProbabilityDesc(ps))
  {
    if ps != [] {
      SortIsDescending(ps[1..]);
      InsertKeepsSorted(ps[0], SortByProbabilityDesc(ps[1..]));
    }
  }

  /** The loop over the transitions: collect the predictions and track the top
      stage on the way. */
  method CollectPredictions(ts: seq<Transition>)
    returns (preds: seq<NextStagePrediction>, topName: string, topProb: real)
    ensures preds == PredictionsOf(ts)
    ensures (topName, topProb) == TopStage(preds)
  {
    preds, topName, topProb := [], "Unknown", 0.0;
    var i := 0;
    while i < |ts|
      invariant 0 <= i <= |ts|
      invariant preds == PredictionsOf(ts[..i])
      invariant (topName, topProb) == TopStage(preds)
    {
      var t := ts[i];
      assert ts[..i + 1][..i] == ts[..i];
      if t.toId in Techniques {
        var target := Techniques[t.toId];
        var p := NextStagePrediction(target.id, target.name, t.probability);
        assert (preds + [p])[..|preds|] == preds;
        preds := preds + [p];
        if t.probability > topProb {
          topProb := t.probability;
          topName := target.name;
        }
      }
      i := i + 1;
    }
    assert ts[..|ts|] == ts;
  }

  /** Every prediction names a catalogue technique and carries the probability
      of a transition into it; there is one per transition into the catalogue. */
  lemma {:induction false} PredictionsComeFromTransitions(ts: seq<Transition>)
    ensures forall p | p in PredictionsOf(ts) ::
      p.techniqueId in Techniques && exists t | t in ts :: t.toId == p.techniqueId && t.probability == p.probability
    ensures (forall t | t in ts :: t.toId in Techniques) ==> |PredictionsOf(ts)| == |ts|
  {
    TechniquesKeyedById();
    if ts != [] {
      var init := ts[..|ts| - 1];
      PredictionsComeFromTransitions(init);
      forall p | p in PredictionsOf(ts)
        ensures p.techniqueId in Techniques
        ensures exists t | t in ts :: t.toId == p.techniqueId && t.probability == p.probability
      {
        if p in PredictionsOf(init) {
          var t :| t in init && t.toId == p.techniqueId && t.probability == p.probability;
          assert t in ts;
        } else {
          assert ts[|ts| - 1] in ts;
        }
      }
      if forall t | t in ts :: t.toId in Techniques {
        assert forall t | t in init :: t in ts;
      }
    }
  }

  /** The top stage is 0 and "Unknown" when no prediction has a positive
      probability, and otherwise the name and probability of the first
      prediction of maximal probability. */
  lemma {:induction false} TopStageIsFirstMax(ps: seq<NextStagePrediction>)
    ensures TopStage(ps).1 >= 0.0
    ensures forall j | 0 <= j < |ps| :: ps[j].probability <= TopStage(ps).1
    ensures TopStage(ps).1 == 0.0 ==> TopStage(ps).0 == "Unknown"
    ensures TopStage(ps).1 > 0.0 ==>
      exists i: nat :: IsFirstMaxStage(ps, i) && ps[i].techniqueName == TopStage(ps).0
                       && ps[i].probability == TopStage(ps).1
  {
    if ps != [] {
      var init := ps[..|ps| - 1];
      var p := ps[|ps| - 1];
      TopStageIsFirstMax(init);
      var best := TopStage(init);
      assert forall j | 0 <= j < |init| :: ps[j] == init[j];
      if p.probability > best.1 {
        assert IsFirstMaxStage(ps, |ps| - 1);
      } else if best.1 > 0.0 {
        var i: nat :| IsFirstMaxStage(init, i)
          && init[i].techniqueName == best.0 && init[i].probability == best.1;
        assert IsFirstMaxStage(ps, i);
      }
    }
  }

  /** If `i` is the first maximum of the tail and the head is strictly less
      likely, the first maximum of the whole list is `i + 1`. */
  lemma FirstMaxShifts(ps: seq<NextStagePrediction>, i: nat)
    requires ps != [] && IsFirstMaxStage(ps[1..], i)
    ensures ps[0].probability >= ps[1..][i].probability ==> IsFirstMaxStage(ps, 0)
    ensures ps[0].probability < ps[1..][i].probability ==> IsFirstMaxStage(ps, i + 1)
  {
  }

  /** The head of the stable descending sort is the first prediction of
      maximal probability. */
  lemma {:induction false} SortedHeadIsFirstMax(ps: seq<NextStagePrediction>)
    requires ps != []
    ensures exists i: nat :: IsFirstMaxStage(ps, i) && SortByProbabilityDesc(ps)[0] == ps[i]
  {
    var tail := ps[1..];
    InsertHead(ps[0], SortByProbabilityDesc(tail));
    if tail == [] {
      assert IsFirstMaxStage(ps, 0);
    } else {
      SortedHeadIsFirstMax(tail);
      var i': nat :| IsFirstMaxStage(tail, i') && SortByProbabilityDesc(tail)[0] == tail[i'];
      FirstMaxShifts(ps, i');
      if ps[0].probability < tail[i'].probability {
        assert ps[i' + 1] == tail[i'];
      }
    }
  }

  /** The first maximal prediction is unique. */
  lemma FirstMaxStageIsUnique(ps: seq<NextStagePrediction>, i: nat, j: nat)
    requires IsFirstMaxStage(ps, i) && IsFirstMaxStage(ps, j)
    ensures i == j
  {
    FirstMaxDominates(ps, i, j);
    FirstMaxDominates(ps, j, i);
  }

  lemma FirstMaxDominates(ps: seq<NextStagePrediction>, i: nat, k: nat)
    requires IsFirstMaxStage(ps, i) && k < |ps|
    ensures ps[k].probability <= ps[i].probability
    ensures k < i ==> ps[k].probability < ps[i].probability
  {
  }

  /** The stage the insight prompt names as most likely is the head of the
      published list (the one the risk score looks at) whenever some
      prediction has a positive probability. */
  lemma TopStageIsSortedHead(ps: seq<NextStagePrediction>)
    requires TopStage(ps).1 > 0.0
    ensures SortByProbabilityDesc(ps) != []
    ensures SortByProbabilityDesc(ps)[0].techniqueName == TopStage(ps).0
    ensures SortByProbabilityDesc(ps)[0].probability == TopStage(ps).1
  {
    TopStageIsFirstMax(ps);
    var i: nat :| IsFirstMaxStage(ps, i)
      && ps[i].techniqueName == TopStage(ps).0 && ps[i].probability == TopStage(ps).1;
    SortedHeadIsFirstMax(ps);
    var k: nat :| IsFirstMaxStage(ps, k) && SortByProbabilityDesc(ps)[0] == ps[k];
    FirstMaxStageIsUnique(ps, i, k);
  }
}
