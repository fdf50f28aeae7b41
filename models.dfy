/** Record types of the incident twin backend, with the defaults the backend
    declares for them.  Optional Python fields become `Option`, `float` becomes
    `real`, and the `datetime` timestamp is kept as an opaque string. */
module Models {

  datatype Option<+T> = None | Some(value: T)

  /** A technique of the attack catalogue (an ATT&CK technique). */
  datatype Technique = Technique(id: string, name: string, tactic: string, description: string)

  /** One edge of the Markov transition model between techniques. */
  datatype Transition = Transition(
    fromId: string,
    toId: string,
    probability: real,
    context: Option<string> := None)

  /** A possible next stage as the client sees it. */
  datatype NextStagePrediction = NextStagePrediction(
    techniqueId: string,
    techniqueName: string,
    probability: real)

  /** The whole state of one simulated incident. */
  datatype SimulationState = SimulationState(
    incidentId: string,
    currentTechnique: Technique,
    detectedAt: string,
    history: seq<string>,
    nextPossibleStages: seq<NextStagePrediction>,
    llmReasoning: Option<string> := None,
    recommendedAction: Option<string> := None,
    isPrevented: bool := false,
    riskScore: int := 0,
    riskTrend: string := "stable",
    projectedFinancialImpact: real := 0.0,
    timeToImpactEstimate: string := "Unknown")

  datatype IncidentStartRequest = IncidentStartRequest(
    sector: string := "Finance",
    initialAlertType: string := "Phishing")

  datatype EvolutionRequest = EvolutionRequest(
    incidentId: string,
    overrideNextStage: Option<string> := None)

  /** A state built from its required fields only carries the declared defaults:
      not prevented, no reasoning or action yet, score 0, trend "stable",
      no projected loss and an unknown time to impact. */
  lemma SimulationStateDefaults(id: string, tech: Technique, at: string,
                                history: seq<string>, stages: seq<NextStagePrediction>)
    ensures var s := SimulationState(id, tech, at, history, stages);
      && !s.isPrevented
      && s.llmReasoning == None && s.recommendedAction == None
      && s.riskScore == 0 && s.riskTrend == "stable"
      && s.projectedFinancialImpact == 0.0 && s.timeToImpactEstimate == "Unknown"
      && s.history == history && s.nextPossibleStages == stages
  {
  }

  /** A start request defaults to the finance sector and a phishing alert; an
      evolution request carries no override unless one is given. */
  lemma RequestDefaults(id: string)
    ensures EvolutionRequest(id).overrideNextStage == None
    ensures IncidentStartRequest() == IncidentStartRequest("Finance", "Phishing")
  {
  }

  /** A transition built without a context has none. */
  lemma TransitionContextDefault(from: string, to: string, p: real)
    ensures Transition(from, to, p).context == None
    ensures Transition(from, to, p) == Transition(from, to, p, None)
  {
  }

  /** Index of the first occurrence of `x` in `xs`, as Python's `list.index`. */
  function IndexOf(xs: seq<string>, x: string): (i: nat)
    requires x in xs
    ensures i < |xs| && xs[i] == x && x !in xs[..i]
  {
    if xs[0] == x then 0
    else
      var i := 1 + IndexOf(xs[1..], x);
      assert xs[..i] == [xs[0]] + xs[1..][..i - 1];
      i
  }
}
