/** The fixed tables of the "Ransomware Kill Chain" scenario: the technique
    catalogue, the severity of each tactic, the financial impact of each
    technique and the Markov transition model between techniques. */
module Catalog {
  import opened Models

  const Techniques: map<string, Technique> := map[
    "T1566" := Technique("T1566", "Phishing", "Initial Access",
      "Adversaries send phishing messages to gain access to victim systems."),
    "T1059" := Technique("T1059", "Command and Scripting Interpreter", "Execution",
      "Adversaries may abuse command and scripting interpreters to execute commands."),
    "T1098" := Technique("T1098", "Account Manipulation", "Persistence",
      "Adversaries may manipulate accounts to maintain access."),
    "T1083" := Technique("T1083", "File and Directory Discovery", "Discovery",
      "Adversaries may enumerate files and directories or query the file system."),
    "T1057" := Technique("T1057", "Process Discovery", "Discovery",
      "Adversaries may attempt to get information about running processes."),
    "T1021" := Technique("T1021", "Remote Services", "Lateral Movement",
      "Adversaries may use Valid Accounts to log into a service accepting remote connections."),
    "T1005" := Technique("T1005", "Data from Local System", "Collection",
      "Adversaries may search for and copy sensitive data from local systems."),
    "T1486" := Technique("T1486", "Data Encrypted for Impact", "Impact",
      "Adversaries may encrypt data on target systems or on large numbers of systems in a network to interrupt availability.")
  ]

  /** Base severity of each tactic, on a 0..100 scale. */
  const SeverityScores: map<string, int> := map[
    "Initial Access" := 20,
    "Execution" := 40,
    "Persistence" := 50,
    "Discovery" := 55,
    "Lateral Movement" := 75,
    "Collection" := 85,
    "Impact" := 100
  ]

  /** Estimated loss, in dollars, if a technique succeeds. */
  const FinancialImpact: map<string, int> := map[
    "T1566" := 15000,
    "T1059" := 50000,
    "T1098" := 80000,
    "T1083" := 40000,
    "T1057" := 20000,
    "T1021" := 500000,
    "T1005" := 1200000,
    "T1486" := 2400000
  ]

  const TransitionMap: map<string, seq<Transition>> := map[
    "T1566" := [
      Transition("T1566", "T1059", 0.85, Some("High likelihood: Phishing often leads to script execution.")),
      Transition("T1566", "T1098", 0.15, Some("Lower likelihood: Direct account manipulation."))
    ],
    "T1059" := [
      Transition("T1059", "T1083", 0.70, Some("Attackers often scout for files after gaining execution.")),
      Transition("T1059", "T1057", 0.30, Some("Checking for security processes."))
    ],
    "T1083" := [
      Transition("T1083", "T1021", 0.90, Some("Finding high-value targets leads to lateral movement.")),
      Transition("T1083", "T1005", 0.10, Some("Local collection."))
    ],
    "T1021" := [
      Transition("T1021", "T1486", 0.95, Some("Endgame: Ransomware deployment."))
    ]
  ]

  /** The technique every incident starts from. */
  const StartTechniqueId: string := "T1566"

  /** The transitions out of a technique; none for a technique the model does
      not list.  This is `TRANSITIONS.get(id, [])`: its contract only states
      the lookup's semantics, for the callers' proofs. */
  function TransitionsFrom(id: string): (ts: seq<Transition>)
    ensures id !in TransitionMap ==> ts == []
    ensures id in TransitionMap ==> ts == TransitionMap[id]
  {
    if id in TransitionMap then TransitionMap[id] else []
  }

  /** The number of transitions needed to reach a technique from the start
      technique; the transition model is layered by it. */
  function Depth(id: string): (d: nat)
    requires id in Techniques
    ensures d <= 4
    ensures d == 0 <==> id == StartTechniqueId
  {
    if id == "T1566" then 0
    else if id in {"T1059", "T1098"} then 1
    else if id in {"T1083", "T1057"} then 2
    else if id in {"T1021", "T1005"} then 3
    else 4
  }

  /** Every catalogue entry is filed under its own id. */
  lemma TechniquesKeyedById()
    ensures forall k | k in Techniques :: Techniques[k].id == k
    ensures StartTechniqueId in Techniques
  {
  }

  /** Every tactic of the catalogue has a severity between 20 and 100. */
  lemma TablesCoverCatalogue()
    ensures forall k | k in Techniques :: Techniques[k].tactic in SeverityScores
    ensures forall t | t in SeverityScores :: 20 <= SeverityScores[t] <= 100
  {
    SeverityScoresInRange();
    CatalogueTacticsScored();
  }

  /** Every catalogue technique has a positive financial impact. */
  lemma FinancialImpactCoversCatalogue()
    ensures forall k | k in Techniques :: k in FinancialImpact && FinancialImpact[k] > 0
  {
  }

  lemma SeverityScoresInRange()
    ensures forall t | t in SeverityScores :: 20 <= SeverityScores[t] <= 100
  {
  }

  lemma CatalogueTacticsScored()
    ensures forall k | k in Techniques :: Techniques[k].tactic in SeverityScores
  {
  }

  /** A transition filed under `k` leaves `k`, reaches a catalogue technique one
      layer deeper and carries a probability in [0, 1]. */
  ghost predicate SoundTransition(k: string, t: Transition)
    requires k in Techniques
  {
    && t.fromId == k
    && t.toId in Techniques
    && Depth(t.toId) == Depth(k) + 1
    && 0.0 <= t.probability <= 1.0
  }

  /** The transition model is well formed: every listed technique is in the
      catalogue, has at least one transition, and all its transitions are sound. */
  lemma TransitionsWellFormed()
    ensures forall k | k in TransitionMap :: k in Techniques && TransitionMap[k] != []
    ensures forall k, i | k in TransitionMap && 0 <= i < |TransitionMap[k]| ::
      k in Techniques && SoundTransition(k, TransitionMap[k][i])
  {
    assert TransitionMap.Keys == {"T1566", "T1059", "T1083", "T1021"};
    forall k, i | k in TransitionMap && 0 <= i < |TransitionMap[k]|
      ensures k in Techniques && SoundTransition(k, TransitionMap[k][i])
    {
      SoundTransitionsFrom(k);
    }
  }

  lemma SoundTransitionsFrom(k: string)
    requires k in TransitionMap
    ensures k in Techniques
    ensures forall i | 0 <= i < |TransitionMap[k]| :: SoundTransition(k, TransitionMap[k][i])
  {
  }
}
