/** The metric calculator of the simulation engine: a risk score from the
    current tactic and the most likely next technique, the projected financial
    loss of that technique, and a time-to-impact estimate from how deep the
    current tactic sits in the kill chain. */
module Metrics {
  import opened Models
  import opened Catalog

  datatype MetricReport = MetricReport(
    riskScore: int,
    riskTrend: string,
    projectedLoss: real,
    timeEstimate: string)

  /** Base score of a tactic the severity table does not list. */
  const UnknownTacticBase: int := 30

  /** Upper bound of the risk score. */
  const RiskCap: int := 100

  /** Tactics of the kill chain, from the first to the last. */
  const DepthMap: seq<string> := ["Initial Access", "Execution", "Persistence", "Discovery",
                                  "Lateral Movement", "Collection", "Impact"]

  /** Python's `int()` on a float: truncation toward zero. */
  function Truncate(x: real): (n: int)
    ensures 0.0 <= x ==> n as real <= x < n as real + 1.0
    ensures x < 0.0 ==> n as real - 1.0 < x <= n as real
  {
    if x >= 0.0 then x.Floor else -((-x).Floor)
  }

  function Min(a: int, b: int): (m: int)
    ensures m <= a && m <= b && (m == a || m == b)
  {
    if a <= b then a else b
  }

  /** Severity of the current tactic, 30 when the table does not list it. */
  function BaseScore(tactic: string): (b: int)
    ensures 20 <= b <= 100
    ensures tactic in SeverityScores ==> b == SeverityScores[tactic]
    ensures tactic !in SeverityScores ==> b == UnknownTacticBase
  {
    TablesCoverCatalogue();
    if tactic in SeverityScores then SeverityScores[tactic] else UnknownTacticBase
  }

  /** Severity of a later tactic, 0 when the table does not list it. */
  function FutureSeverity(tactic: string): (s: int)
    ensures 0 <= s <= 100
    ensures tactic in SeverityScores ==> s == SeverityScores[tactic]
    ensures s == 0 <==> tactic !in SeverityScores
  {
    TablesCoverCatalogue();
    if tactic in SeverityScores then SeverityScores[tactic] else 0
  }

  /** The top prediction names a catalogue technique. */
  predicate KnownTop(preds: seq<NextStagePrediction>) {
    preds != [] && preds[0].techniqueId in Techniques
  }

  /** The amount by which a more severe likely next step raises the risk. */
  function FutureRiskAdder(base: int, preds: seq<NextStagePrediction>): (a: real)
    ensures KnownTop(preds) && FutureSeverity(Techniques[preds[0].techniqueId].tactic) > base ==>
      a == (FutureSeverity(Techniques[preds[0].techniqueId].tactic) - base) as real * preds[0].probability
    ensures !(KnownTop(preds) && FutureSeverity(Techniques[preds[0].techniqueId].tactic) > base) ==> a == 0.0
    ensures a != 0.0 ==>
      KnownTop(preds) && FutureSeverity(Techniques[preds[0].techniqueId].tactic) > base
    ensures (preds == [] || preds[0].probability >= 0.0) ==> a >= 0.0
    ensures KnownTop(preds) && 0.0 <= preds[0].probability <= 1.0 ==>
      a <= (FutureSeverity(Techniques[preds[0].techniqueId].tactic) - base) as real || a == 0.0
  {
    if !KnownTop(preds) then 0.0
    else
      var severity := FutureSeverity(Techniques[preds[0].techniqueId].tactic);
      if severity > base then
        var gap := (severity - base) as real;
        var p := preds[0].probability;
        assert 0.0 <= p <= 1.0 ==> gap * p <= gap * 1.0;
        gap * p
      else 0.0
  }

  /** Expected loss of the top prediction, 0 when there is none or it is not
      in the catalogue. */
  function ProjectedLoss(preds: seq<NextStagePrediction>): (loss: real)
    ensures !KnownTop(preds) ==> loss == 0.0
    ensures KnownTop(preds) ==>
      loss == FinancialImpact[preds[0].techniqueId] as real * preds[0].probability
  {
    FinancialImpactCoversCatalogue();
    if !KnownTop(preds) then 0.0
    else
      var id := preds[0].techniqueId;
      var impact := if id in FinancialImpact then FinancialImpact[id] else 0;
      impact as real * preds[0].probability
  }

  function Digit(d: nat): (c: char)
    requires d < 10
    ensures '0' <= c <= '9' && (c as int) - ('0' as int) == d
  {
    ('0' as int + d) as char
  }

  /** Decimal rendering of a natural number, as Python's f-string does. */
  function NatToString(n: nat): (s: string)
    ensures |s| >= 1 && forall i | 0 <= i < |s| :: '0' <= s[i] <= '9'
    ensures s[0] == '0' ==> n == 0
    decreases n
  {
    if n < 10 then [Digit(n)] else NatToString(n / 10) + [Digit(n % 10)]
  }

  /** Value of a string of decimal digits. */
  function ParseDecimal(s: string): nat
    requires forall i | 0 <= i < |s| :: '0' <= s[i] <= '9'
  {
    if s == [] then 0
    else ParseDecimal(s[..|s| - 1]) * 10 + ((s[|s| - 1] as int) - ('0' as int))
  }

  /** Reading back a rendered number gives the number. */
  lemma {:induction false} ParseNatToString(n: nat)
    ensures ParseDecimal(NatToString(n)) == n
    decreases n
  {
    var s := NatToString(n);
    if n >= 10 {
      assert s[..|s| - 1] == NatToString(n / 10);
      ParseNatToString(n / 10);
    }
  }

  /** No tactic occurs twice in the chain. */
  lemma DepthMapDistinct()
    ensures forall i, j | 0 <= i < |DepthMap| && 0 <= j < |DepthMap| && DepthMap[i] == DepthMap[j] :: i == j
  {
  }

  /** Hours left before impact, from the position of the tactic in the chain. */
  function TimeEstimate(tactic: string): (t: string)
    ensures tactic !in DepthMap ==> t == "Unknown"
    ensures tactic == "Impact" ==> t == "IMMEDIATE"
    ensures forall i | 0 <= i < 6 && DepthMap[i] == tactic ::
      t == NatToString((6 - i) * 4) + " hours"
  {
    DepthMapDistinct();
    assert DepthMap[6] == "Impact";
    if tactic in DepthMap then
      var idx := IndexOf(DepthMap, tactic);
      var stepsLeft := 6 - idx;
      if stepsLeft > 0 then NatToString(stepsLeft * 4) + " hours" else "IMMEDIATE"
    else "Unknown"
  }

  /** The metric calculator of the engine. */
  function CalculateMetrics(current: Technique, preds: seq<NextStagePrediction>): (m: MetricReport)
    ensures m.riskScore <= RiskCap
    ensures (preds == [] || preds[0].probability >= 0.0) ==> m.riskScore >= BaseScore(current.tactic)
    ensures m.riskTrend == "Increasing" <==> FutureRiskAdder(BaseScore(current.tactic), preds) > 5.0
    ensures m.riskTrend == "Increasing" || m.riskTrend == "Stable"
    ensures m.projectedLoss == ProjectedLoss(preds)
    ensures m.timeEstimate == TimeEstimate(current.tactic)
  {
    var base := BaseScore(current.tactic);
    var adder := FutureRiskAdder(base, preds);
    MetricReport(
      Min(Truncate(base as real + adder), RiskCap),
      if adder > 5.0 then "Increasing" else "Stable",
      ProjectedLoss(preds),
      TimeEstimate(current.tactic))
  }

  /** With a probability in [0, 1] the cap at 100 never binds: base plus adder
      is at most the more severe of the two tactics. */
  lemma CapNeverBinds(current: Technique, preds: seq<NextStagePrediction>)
    requires preds == [] || 0.0 <= preds[0].probability <= 1.0
    ensures BaseScore(current.tactic) as real + FutureRiskAdder(BaseScore(current.tactic), preds) <= RiskCap as real
    ensures CalculateMetrics(current, preds).riskScore
         == Truncate(BaseScore(current.tactic) as real + FutureRiskAdder(BaseScore(current.tactic), preds))
  {
  }

  /** Without a known top prediction the score is the base severity, the trend
      is stable and no loss is projected. */
  lemma NoKnownTopMeansBaseRisk(current: Technique, preds: seq<NextStagePrediction>)
    requires !KnownTop(preds)
    ensures CalculateMetrics(current, preds) ==
      MetricReport(BaseScore(current.tactic), "Stable", 0.0, TimeEstimate(current.tactic))
  {
  }

  /** An increasing trend always means at least five points above the base. */
  lemma IncreasingTrendRaisesScore(current: Technique, preds: seq<NextStagePrediction>)
    requires preds == [] || 0.0 <= preds[0].probability <= 1.0
    requires CalculateMetrics(current, preds).riskTrend == "Increasing"
    ensures CalculateMetrics(current, preds).riskScore >= BaseScore(current.tactic) + 5
  {
  }

  lemma TimeEstimateAt(i: nat, tactic: string, hours: nat)
    requires i < 6 && DepthMap[i] == tactic && hours == (6 - i) * 4
    ensures TimeEstimate(tactic) == NatToString(hours) + " hours"
  {
  }

  /** The rendered time to impact at each position of the chain. */
  const HoursLeft: seq<string> := ["24 hours", "20 hours", "16 hours", "12 hours", "8 hours", "4 hours", "IMMEDIATE"]

  /** The time-to-impact table: 24 hours at initial access, four hours fewer
      for each later tactic, immediate at impact. */
  lemma TimeEstimateTable(i: nat)
    requires i < |DepthMap|
    ensures TimeEstimate(DepthMap[i]) == HoursLeft[i]
  {
    if i < 6 {
      TimeEstimateAt(i, DepthMap[i], (6 - i) * 4);
      HoursRendered(i);
    }
  }

  /** "(6 - i) * 4 hours" is the text of the table at position `i`. */
  lemma HoursRendered(i: nat)
    requires i < 6
    ensures NatToString((6 - i) * 4) + " hours" == HoursLeft[i]
  {
  }
}
