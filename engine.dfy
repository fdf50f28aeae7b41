/** The incident simulation engine: one global simulation that the start,
    evolve and mitigate endpoints update in place, and the state endpoint
    reads.  HTTP errors become `Error` responses; the random draw, the clock
    and the insight generator are parameters. */
module Engine {
  import opened Models
  import opened Catalog
  import opened Metrics
  import opened Selection
  import opened Forecast
  import Insight

  /** What an endpoint answers: the simulation state, or an HTTP error. */
  datatype Response = Ok(state: SimulationState) | Error(status: nat, detail: string)

  /** The insight generator, called with the new technique's name and the name
      and probability of the most likely next stage. */
  type InsightSource = (string, string, real) -> map<string, string>

  const NoSimulation: string := "No active simulation"
  const AlreadyPrevented: string := "Attack already prevented"
  const EndOfPath: string := "End of simulation path reached"
  const InitialReasoning: string := "System initialized. Analysis pending..."
  const InitialAction: string := "Isolate affected workstation immediately."
  const MitigatedReasoning: string := "Defensive action applied successfully. Attack chain broken."

  /** Python's `dict.get(key, default)`; its contract is the library's
      semantics, stated for the callers' proofs. */
  function Lookup(m: map<string, string>, key: string, default: string): (v: string)
    ensures key in m ==> v == m[key]
    ensures key !in m ==> v == default
  {
    if key in m then m[key] else default
  }

  /** The published list of next stages for a technique: the predictions of
      its transitions, highest probability first. */
  function StagesFor(id: string): (ps: seq<NextStagePrediction>)
    ensures SortedByProbabilityDesc(ps)
    ensures multiset(ps) == multiset(PredictionsOf(TransitionsFrom(id)))
  {
    SortIsDescending(PredictionsOf(TransitionsFrom(id)));
    SortByProbabilityDesc(PredictionsOf(TransitionsFrom(id)))
  }

  /** The state after the simulation has moved to technique `nextId`: the
      history grows by that id, the next stages are recomputed, the insight is
      asked about the new technique and the metrics are refreshed. */
  function Advance(s: SimulationState, nextId: string, insight: InsightSource): (t: SimulationState)
    requires nextId in Techniques
    ensures t.history == s.history + [nextId] && t.currentTechnique == Techniques[nextId]
    ensures t.nextPossibleStages == StagesFor(nextId)
    ensures t.incidentId == s.incidentId && t.detectedAt == s.detectedAt && t.isPrevented == s.isPrevented
    ensures t.llmReasoning.Some? && t.recommendedAction.Some?
    ensures 0 <= t.riskScore <= RiskCap
  {
    KeyedAt(nextId);
    StagesRiskInRange(Techniques[nextId]);
    var next := Techniques[nextId];
    var preds := PredictionsOf(TransitionsFrom(next.id));
    var stages := SortByProbabilityDesc(preds);
    var top := TopStage(preds);
    var answer := insight(next.name, top.0, top.1);
    var m := CalculateMetrics(next, stages);
    s.(history := s.history + [next.id],
       currentTechnique := next,
       nextPossibleStages := stages,
       llmReasoning := Some(Lookup(answer, "reasoning", "Analyzing...")),
       recommendedAction := Some(Lookup(answer, "defensive_recommendation", "Monitor.")),
       riskScore := m.riskScore,
       riskTrend := m.riskTrend,
       projectedFinancialImpact := m.projectedLoss,
       timeToImpactEstimate := m.timeEstimate)
  }

  /** The fields an advance refreshes: the reasoning and the recommendation
      are the insight's answers about the new technique and its most likely
      next stage, with the `.get` defaults, and the four metric fields are the
      calculator's report on the new technique and its published stages. */
  lemma AdvanceRefreshes(s: SimulationState, nextId: string, insight: InsightSource)
    requires nextId in Techniques
    ensures var t := Advance(s, nextId, insight);
      var top := TopStage(PredictionsOf(TransitionsFrom(nextId)));
      var answer := insight(Techniques[nextId].name, top.0, top.1);
      && t.llmReasoning == Some(Lookup(answer, "reasoning", "Analyzing..."))
      && t.recommendedAction == Some(Lookup(answer, "defensive_recommendation", "Monitor."))
    ensures var t := Advance(s, nextId, insight);
      var m := CalculateMetrics(Techniques[nextId], StagesFor(nextId));
      && t.riskScore == m.riskScore && t.riskTrend == m.riskTrend
      && t.projectedFinancialImpact == m.projectedLoss && t.timeToImpactEstimate == m.timeEstimate
  {
    KeyedAt(nextId);
  }

  /** The insight source when the language model cannot be reached: the
      client answers with the fixed insight for the current stage's name. */
  function OfflineInsight(current: string, next: string, probability: real): (m: map<string, string>)
    ensures m.Keys == Insight.InsightKeys
    ensures m["defensive_recommendation"] == "Monitor for further anomalies." <==>
      Insight.Classify(current) == Insight.DefaultKind
  {
    Insight.FallbackInsight(current)
  }

  /** Offline, the reasoning and the recommendation of the new state are the
      fixed insight of the new technique, never the "Analyzing..." and
      "Monitor." placeholders. */
  lemma OfflineAdvance(s: SimulationState, nextId: string)
    requires nextId in Techniques
    ensures var t := Advance(s, nextId, OfflineInsight);
      var fixed := Insight.FallbackInsight(Techniques[nextId].name);
      && t.llmReasoning == Some(fixed["reasoning"])
      && t.recommendedAction == Some(fixed["defensive_recommendation"])
      && t.llmReasoning != Some("Analyzing...")
      && t.recommendedAction != Some("Monitor.")
  {
    var name := Techniques[nextId].name;
    AdvanceRefreshes(s, nextId, OfflineInsight);
    FixedTextsAreNotPlaceholders(Insight.Classify(name));
  }

  /** None of the fixed insight texts is one of the `.get` placeholders. */
  lemma FixedTextsAreNotPlaceholders(k: Insight.InsightKind)
    ensures Insight.InsightOf(k)["reasoning"] != "Analyzing..."
    ensures Insight.InsightOf(k)["defensive_recommendation"] != "Monitor."
  {
  }

  /** The state a new incident starts in: a live incident at the phishing
      step, with its stages published and a risk score in range. */
  function InitialState(stamp: string, detectedAt: string): (s: SimulationState)
    ensures s.incidentId == "INC-" + stamp && s.detectedAt == detectedAt
    ensures s.history == [StartTechniqueId] && s.currentTechnique == Techniques[StartTechniqueId]
    ensures s.nextPossibleStages == StagesFor(StartTechniqueId) && !s.isPrevented
    ensures s.llmReasoning == Some(InitialReasoning) && s.recommendedAction == Some(InitialAction)
    ensures var m := CalculateMetrics(Techniques[StartTechniqueId], StagesFor(StartTechniqueId));
      && s.riskScore == m.riskScore && s.riskTrend == m.riskTrend
      && s.projectedFinancialImpact == m.projectedLoss && s.timeToImpactEstimate == m.timeEstimate
    ensures 0 <= s.riskScore <= RiskCap
  {
    KeyedAt(StartTechniqueId);
    StagesRiskInRange(Techniques[StartTechniqueId]);
    var start := Techniques[StartTechniqueId];
    var stages := StagesFor(StartTechniqueId);
    var m := CalculateMetrics(start, stages);
    SimulationState("INC-" + stamp, start, detectedAt, [StartTechniqueId], stages,
      Some(InitialReasoning), Some(InitialAction), false,
      m.riskScore, m.riskTrend, m.projectedLoss, m.timeEstimate)
  }

  /** `b` is the target of one of the transitions out of `a`. */
  ghost predicate IsStep(a: string, b: string) {
    exists t | t in TransitionsFrom(a) :: t.toId == b
  }

  /** The invariant of every state the engine publishes: the history is a walk
      of the transition model from the start technique, one layer per step,
      ending at the current technique; the next stages are those of the current
      technique until the attack is prevented, and none afterwards; the risk
      score lies in 0..100. */
  ghost predicate WellFormed(s: SimulationState) {
    && s.history != []
    && s.history[0] == StartTechniqueId
    && (forall i | 0 <= i < |s.history| :: s.history[i] in Techniques && Depth(s.history[i]) == i)
    && (forall i | 0 < i < |s.history| :: IsStep(s.history[i - 1], s.history[i]))
    && s.currentTechnique == Techniques[s.history[|s.history| - 1]]
    && (s.isPrevented ==> s.nextPossibleStages == [])
    && (!s.isPrevented ==> s.nextPossibleStages == StagesFor(s.currentTechnique.id))
    && 0 <= s.riskScore <= RiskCap
  }

  /** Every published stage names a catalogue technique and has a probability in [0, 1]. */
  lemma StagesWellFormed(id: string)
    ensures forall p | p in StagesFor(id) :: p.techniqueId in Techniques && 0.0 <= p.probability <= 1.0
  {
    TransitionsFromSound(id);
    SortedPredictionsBounded(TransitionsFrom(id));
  }

  /** The transitions out of any technique lead into the catalogue with a probability in [0, 1]. */
  lemma TransitionsFromSound(id: string)
    ensures forall t | t in TransitionsFrom(id) :: t.toId in Techniques && 0.0 <= t.probability <= 1.0
  {
    if id in TransitionMap {
      TransitionsWellFormed();
      forall t | t in TransitionsFrom(id) ensures t.toId in Techniques && 0.0 <= t.probability <= 1.0 {
        var i :| 0 <= i < |TransitionMap[id]| && TransitionMap[id][i] == t;
        assert SoundTransition(id, TransitionMap[id][i]);
      }
    }
  }

  /** Sorting the predictions of sound transitions keeps their bounds. */
  lemma SortedPredictionsBounded(ts: seq<Transition>)
    requires forall t | t in ts :: 0.0 <= t.probability <= 1.0
    ensures forall p | p in SortByProbabilityDesc(PredictionsOf(ts)) ::
      p.techniqueId in Techniques && 0.0 <= p.probability <= 1.0
  {
    var preds := PredictionsOf(ts);
    PredictionsComeFromTransitions(ts);
    forall p | p in SortByProbabilityDesc(preds)
      ensures p.techniqueId in Techniques && 0.0 <= p.probability <= 1.0
    {
      assert p in multiset(SortByProbabilityDesc(preds));
      assert p in preds;
    }
  }

  /** The metrics of a published stage list keep the risk score in 0..100. */
  lemma StagesRiskInRange(current: Technique)
    ensures 0 <= CalculateMetrics(current, StagesFor(current.id)).riskScore <= RiskCap
  {
    StagesWellFormed(current.id);
    var stages := StagesFor(current.id);
    if stages != [] {
      assert stages[0] in stages;
    }
  }

  /** The start state is well formed. */
  lemma InitialStateWellFormed(stamp: string, detectedAt: string)
    ensures WellFormed(InitialState(stamp, detectedAt))
  {
    KeyedAt(StartTechniqueId);
    StartStateWellFormed(InitialState(stamp, detectedAt));
  }

  /** A state that has just entered the start technique, with its stages
      published and its risk in range, is well formed. */
  lemma StartStateWellFormed(st: SimulationState)
    requires st.history == [StartTechniqueId]
    requires st.currentTechnique == Techniques[StartTechniqueId]
    requires !st.isPrevented && st.nextPossibleStages == StagesFor(st.currentTechnique.id)
    requires 0 <= st.riskScore <= RiskCap
    ensures WellFormed(st)
  {
    assert Depth(StartTechniqueId) == 0;
  }

  /** A transition out of a well-placed technique leads one layer deeper to a
      catalogue technique filed under its own id. */
  lemma StepIsSound(cur: string, k: nat)
    requires cur in Techniques && k < |TransitionsFrom(cur)|
    ensures TransitionsFrom(cur)[k].toId in Techniques
    ensures Techniques[TransitionsFrom(cur)[k].toId].id == TransitionsFrom(cur)[k].toId
    ensures Depth(TransitionsFrom(cur)[k].toId) == Depth(cur) + 1
    ensures IsStep(cur, TransitionsFrom(cur)[k].toId)
  {
    var ts := TransitionsFrom(cur);
    assert cur in TransitionMap;
    TransitionsWellFormed();
    TechniquesKeyedById();
    assert SoundTransition(cur, ts[k]);
    assert ts[k] in ts;
  }

  /** Moving along a transition out of the current technique keeps the state well formed. */
  lemma AdvanceKeepsWellFormed(s: SimulationState, k: nat, insight: InsightSource)
    requires WellFormed(s) && !s.isPrevented
    requires k < |TransitionsFrom(s.currentTechnique.id)|
    ensures TransitionsFrom(s.currentTechnique.id)[k].toId in Techniques
    ensures WellFormed(Advance(s, TransitionsFrom(s.currentTechnique.id)[k].toId, insight))
  {
    var last := s.history[|s.history| - 1];
    KeyedAt(last);
    var cur := s.currentTechnique.id;
    StepIsSound(cur, k);
    var nextId := TransitionsFrom(cur)[k].toId;
    var n := Advance(s, nextId, insight);
    assert n.currentTechnique.id == nextId;
    forall i | 0 < i < |n.history| ensures IsStep(n.history[i - 1], n.history[i]) {
      if i < |s.history| {
        assert n.history[i - 1] == s.history[i - 1] && n.history[i] == s.history[i];
      }
    }
  }

  /** A catalogue entry carries its own key as id. */
  lemma KeyedAt(id: string)
    requires id in Techniques
    ensures Techniques[id].id == id
  {
    TechniquesKeyedById();
  }

  /** A mitigated state stays well formed. */
  lemma MitigationKeepsWellFormed(s: SimulationState)
    requires WellFormed(s)
    ensures WellFormed(s.(isPrevented := true, llmReasoning := Some(MitigatedReasoning), nextPossibleStages := []))
  {
  }

  /** A well-formed history has at most five entries, one per layer of the
      transition model, and ends with the current technique's id. */
  lemma HistoryAtMostFive(s: SimulationState)
    requires WellFormed(s)
    ensures |s.history| <= 5
    ensures s.history[|s.history| - 1] == s.currentTechnique.id
  {
    TechniquesKeyedById();
    var last := s.history[|s.history| - 1];
    assert Depth(last) == |s.history| - 1;
  }

  /** The techniques no transition leaves: an evolution from them ends the path. */
  lemma EndsOfPath(id: string)
    requires id in Techniques
    ensures TransitionsFrom(id) == [] <==> id in {"T1098", "T1057", "T1005", "T1486"}
  {
  }

  /** The update half of an evolution step: move to technique `nextId`,
      collect its predictions while tracking the top one, ask the insight
      source about it and refresh the metrics. */
  method AdvanceTo(s: SimulationState, nextId: string, insight: InsightSource) returns (t: SimulationState)
    requires nextId in Techniques
    ensures t == Advance(s, nextId, insight)
  {
    KeyedAt(nextId);
    var nextTech := Techniques[nextId];
    t := s.(history := s.history + [nextTech.id], currentTechnique := nextTech);

    var predictions, topName, topProb := CollectPredictions(TransitionsFrom(nextTech.id));
    t := t.(nextPossibleStages := SortByProbabilityDesc(predictions));

    var answer := insight(nextTech.name, topName, topProb);
    t := t.(llmReasoning := Some(Lookup(answer, "reasoning", "Analyzing...")),
            recommendedAction := Some(Lookup(answer, "defensive_recommendation", "Monitor.")));

    var metrics := CalculateMetrics(nextTech, t.nextPossibleStages);
    t := t.(riskScore := metrics.riskScore, riskTrend := metrics.riskTrend,
            projectedFinancialImpact := metrics.projectedLoss,
            timeToImpactEstimate := metrics.timeEstimate);
  }

  /** The owner of the engine's single global simulation. */
  class IncidentTwin {
    var simulation: Option<SimulationState>

    ghost predicate Valid()
      reads this
    {
      simulation.Some? ==> WellFormed(simulation.value)
    }

    constructor()
      ensures simulation == None && Valid()
    {
      simulation := None;
    }

    /** Start a new incident at the phishing step.  `stamp` stands for the
        formatted current minute and `detectedAt` for the current time.  The
        request body is accepted and not used. */
    method StartIncident(request: IncidentStartRequest, stamp: string, detectedAt: string)
      returns (res: Response)
      modifies this
      ensures simulation == Some(InitialState(stamp, detectedAt))
      ensures res == Ok(simulation.value)
      ensures Valid()
    {
      var startTech := Techniques[StartTechniqueId];
      var predictions, _, _ := CollectPredictions(TransitionsFrom(StartTechniqueId));
      var s := SimulationState("INC-" + stamp, startTech, detectedAt, [StartTechniqueId],
        SortByProbabilityDesc(predictions),
        Some(InitialReasoning), Some(InitialAction), false,
        20, "Increasing", 15000.0, "24 hours");
      var metrics := CalculateMetrics(startTech, s.nextPossibleStages);
      s := s.(riskScore := metrics.riskScore, riskTrend := metrics.riskTrend,
              projectedFinancialImpact := metrics.projectedLoss,
              timeToImpactEstimate := metrics.timeEstimate);
      simulation := Some(s);
      res := Ok(s);
      InitialStateWellFormed(stamp, detectedAt);
    }

    /** The state endpoint: the current simulation, or 404 when there is none. */
    function GetState(): (res: Response)
      reads this
      ensures res.Error? <==> simulation.None?
      ensures res.Error? ==> res == Error(404, NoSimulation)
      ensures res.Ok? ==> res.state == simulation.value
    {
      if simulation.None? then Error(404, NoSimulation) else Ok(simulation.value)
    }

    /** One evolution step.  With no simulation, a prevented attack or no
        transition out of the current technique it answers an error and changes
        nothing; otherwise it moves along the transition chosen by the override,
        the draw `r` or the maximum, and the answer is the new state. */
    method Evolve(request: EvolutionRequest, r: real, insight: InsightSource) returns (res: Response)
      modifies this
      ensures old(simulation).None? ==> res == Error(404, NoSimulation) && simulation == old(simulation)
      ensures old(simulation).Some? && old(simulation).value.isPrevented ==>
        res == Error(400, AlreadyPrevented) && simulation == old(simulation)
      ensures old(simulation).Some? && !old(simulation).value.isPrevented
              && TransitionsFrom(old(simulation).value.currentTechnique.id) == [] ==>
        res == Error(400, EndOfPath) && simulation == old(simulation)
      ensures old(simulation).Some? && !old(simulation).value.isPrevented
              && TransitionsFrom(old(simulation).value.currentTechnique.id) != [] ==>
        res.Ok?
      ensures res.Ok? ==>
        var s := old(simulation).value;
        var ts := TransitionsFrom(s.currentTechnique.id);
        && old(simulation).Some? && !s.isPrevented && ts != []
        && exists k | 0 <= k < |ts| ::
             && Chosen(ts, request.overrideNextStage, r, k)
             && ts[k].toId in Techniques
             && simulation == Some(Advance(s, ts[k].toId, insight))
             && res == Ok(simulation.value)
      ensures old(Valid()) ==> Valid()
    {
      if simulation.None? {
        return Error(404, NoSimulation);
      }
      var s := simulation.value;
      if s.isPrevented {
        return Error(400, AlreadyPrevented);
      }
      var currentId := s.currentTechnique.id;
      var transitions := TransitionsFrom(currentId);
      if transitions == [] {
        return Error(400, EndOfPath);
      }
      ghost var start := s;
      var k := ChooseTransition(transitions, request.overrideNextStage, r);
      TargetInCatalogue(currentId, k);
      s := AdvanceTo(s, transitions[k].toId, insight);
      if WellFormed(start) {
        AdvanceKeepsWellFormed(start, k, insight);
      }
      simulation := Some(s);
      res := Ok(s);
    }

    /** The mitigation endpoint: mark the attack prevented, replace the
        reasoning and drop every next stage; 404 when there is no simulation. */
    method Mitigate() returns (res: Response)
      modifies this
      ensures old(simulation).None? ==> res == Error(404, NoSimulation) && simulation == old(simulation)
      ensures old(simulation).Some? ==>
        && simulation == Some(old(simulation).value.(isPrevented := true,
                                                     llmReasoning := Some(MitigatedReasoning),
                                                     nextPossibleStages := []))
        && res == Ok(simulation.value)
      ensures old(Valid()) ==> Valid()
    {
      if simulation.None? {
        return Error(404, NoSimulation);
      }
      var s := simulation.value;
      s := s.(isPrevented := true);
      s := s.(llmReasoning := Some(MitigatedReasoning));
      s := s.(nextPossibleStages := []);
      simulation := Some(s);
      res := Ok(s);
    }
  }

  /** Every transition of the model leads to a catalogue technique. */
  lemma TargetInCatalogue(id: string, k: nat)
    requires k < |TransitionsFrom(id)|
    ensures TransitionsFrom(id)[k].toId in Techniques
    ensures Techniques[TransitionsFrom(id)[k].toId].id == TransitionsFrom(id)[k].toId
  {
    TransitionsWellFormed();
    TechniquesKeyedById();
  }

  /** Once an attack is mitigated every later evolution answers 400 and leaves
      the state as it is. */
  method MitigationBlocksEvolution(twin: IncidentTwin, request: EvolutionRequest, r: real, insight: InsightSource)
    returns (res: Response)
    requires twin.simulation.Some?
    modifies twin
    ensures res == Error(400, AlreadyPrevented)
    ensures twin.simulation.Some? && twin.simulation.value.isPrevented
    ensures twin.simulation.value.nextPossibleStages == []
  {
    var _ := twin.Mitigate();
    res := twin.Evolve(request, r, insight);
  }
}
