# Cognitive Incident Twin — a verified model of its core

The Cognitive Incident Twin simulates a ransomware kill chain as a Markov
model over ATT&CK techniques.

The backend keeps one global simulation. `start_incident` opens it at
phishing (T1566). `evolve_simulation` moves it one transition forward:

- it picks the next technique from a requested override, a weighted random
  draw, or the most probable transition;
- it recomputes the list of possible next stages;
- it asks a language model, or its offline fallback, for an analysis;
- it refreshes the risk metrics.

`mitigate_attack` stops the chain, and `get_state` reports the current
simulation. The frontend draws the simulation as a force-directed graph.
Each snapshot becomes a node list and a link list, and every node can be
dragged and pinned.

The Dafny modules follow the program:

| file | module | models |
|---|---|---|
| `models.dfy` | `Models` | the pydantic records of `backend/models.py` with their defaults, and Python's `list.index` |
| `catalog.dfy` | `Catalog` | the technique catalogue, severity and financial tables, and the transition model |
| `metrics.dfy` | `Metrics` | `calculate_metrics`: risk score, trend, projected loss, time to impact |
| `selection.dfy` | `Selection` | the transition choice of an evolution step (three loops, three stages) |
| `forecast.dfy` | `Forecast` | the prediction loop, the top-stage tracking and the stable descending sort |
| `engine.dfy` | `Engine` | the global simulation as a class with the start, state, evolve and mitigate endpoints |
| `insight.dfy` | `Insight` | `get_fallback_insight`, the ordered keyword classifier |
| `graph.dfy` | `Graph` | the graph builder of `AttackGraph.jsx` as a class over its node, link and seen-id state |
| `drag.dfy` | `Drag` | the lane accessor and the drag handlers that pin and release nodes |

Modelling conventions:

- Python `float` is `real`.
- Python `int()` on a float is truncation toward zero (`Metrics.Truncate`).
- Python `max` returns the first maximal element.
- `sorted(..., reverse=True)` is a stable sort, highest first.
- Three inputs become parameters of the operations that use them:
  - the random draw `r`;
  - the clock, as the formatted incident stamp and the detection time;
  - the insight generator, as a function from the new stage name, the top
    next-stage name and its probability to a string map.
- An HTTP error is a `Response.Error(status, detail)`.

Two behaviours of the view's builder follow from its code:

- A node's first `addNode` call wins. When the current technique's id is
  already in the history, its node keeps type `history` and the graph has
  no node of type `current` (`Graph.CurrentNodeIffNew`). The backend always
  ends the history with the current id, so its snapshots draw every node of
  the path as a history node; a one-entry snapshot gives a single history
  node (`Graph.SingleStepScenario`).
- The extra solid link into the current technique starts at
  `history[len-2]`. For a two-entry history T1, T2 and a new current T3 it
  is T1→T3 (`Graph.ThreeStepScenario`). With the backend's snapshots it
  repeats the last history link (`Graph.BackendSnapshotShape`).

## Model

| member | source | states |
|---|---|---|
| Models.SimulationStateDefaults | backend/models.py:22-36 | a state built from its required fields is not prevented and has no reasoning or action, score 0, trend "stable", loss 0.0 and time "Unknown" |
| Models.RequestDefaults | backend/models.py:39-45 | a start request defaults to sector "Finance" and alert "Phishing"; an evolution request has no override by default |
| Models.TransitionContextDefault | backend/models.py:11-15 | a transition's context defaults to nothing |
| Catalog.Depth | backend/main.py:108-124 | the layer of each technique in the transition model is at most 4, and it is 0 exactly for the start technique |
| Catalog.TechniquesKeyedById | backend/main.py:31-40 | every catalogue entry is filed under its own id, and the start technique T1566 is catalogued |
| Catalog.TablesCoverCatalogue | backend/main.py:31-52 | every catalogued tactic has a severity, and every severity lies in 20..100 |
| Catalog.SeverityScoresInRange | backend/main.py:44-52 | every severity score lies in 20..100 |
| Catalog.CatalogueTacticsScored | backend/main.py:31-52 | every catalogued technique's tactic is in the severity table |
| Catalog.FinancialImpactCoversCatalogue | backend/main.py:55-64 | every catalogued technique has a positive financial impact |
| Catalog.TransitionsWellFormed | backend/main.py:108-124 | every technique with transitions is catalogued and has at least one; each transition leaves its key, reaches a catalogued technique one layer deeper, and has a probability in [0, 1] |
| Catalog.TransitionsFrom | backend/main.py:223 | the transitions out of a technique are its table entry, in table order, and none for a technique without an entry, as `dict.get(id, [])` |
| Catalog.SoundTransitionsFrom | backend/main.py:108-124 | the same soundness for the transitions out of one technique |
| Metrics.Truncate | backend/main.py:88 | `int()` truncates toward zero: the result is within 1 of x, on the side of 0 |
| Metrics.Min | backend/main.py:88 | `min` is at most both arguments and equals one of them |
| Metrics.BaseScore | backend/main.py:70 | the base score is the tactic's entry in SEVERITY_SCORES when it is listed and 30 otherwise, so it lies in 20..100 |
| Metrics.FutureSeverity | backend/main.py:80 | the future severity is the tactic's entry in SEVERITY_SCORES when it is listed and 0 otherwise; it lies in 0..100 and is 0 exactly for an unlisted tactic |
| Metrics.FutureRiskAdder | backend/main.py:73-83 | when the top prediction is catalogued and its tactic's severity exceeds the base, the adder is that severity gap times the top probability, and 0 otherwise; so it is non-zero only in that case, non-negative for a non-negative probability, and at most the severity gap for a probability in [0, 1] |
| Metrics.ProjectedLoss | backend/main.py:74-86 | the loss is 0 without a catalogued top prediction, and otherwise the top technique's financial impact times its probability |
| Models.IndexOf | backend/main.py:94 | `list.index` gives the first position of the element |
| Metrics.NatToString | backend/main.py:96 | the decimal rendering is non-empty, all digits, and has no leading zero |
| Metrics.ParseNatToString | backend/main.py:96 | reading the rendered number back gives the number |
| Metrics.DepthMapDistinct | backend/main.py:92 | no tactic appears twice in the kill-chain list |
| Metrics.TimeEstimate | backend/main.py:92-98 | "Unknown" for a tactic off the list, "IMMEDIATE" for Impact, and "(6-i)*4 hours" for the tactic at position i < 6 |
| Metrics.CalculateMetrics | backend/main.py:66-105 | the score is at most 100 and, for a non-negative top probability, at least the base; the trend is "Increasing" exactly when the adder exceeds 5, and "Stable" otherwise; the loss and time are the two functions above |
| Metrics.CapNeverBinds | backend/main.py:81-88 | for a probability in [0, 1], base plus adder never exceeds 100, so the score is the truncated sum |
| Metrics.NoKnownTopMeansBaseRisk | backend/main.py:76-105 | without a catalogued top prediction the report is (base, "Stable", 0.0, time estimate) |
| Metrics.IncreasingTrendRaisesScore | backend/main.py:81-102 | an increasing trend means a score at least 5 above the base |
| Metrics.TimeEstimateAt | backend/main.py:94-96 | the tactic at position i < 6 gets the rendering of (6-i)*4 followed by " hours" |
| Metrics.TimeEstimateTable | backend/main.py:92-98 | along the kill chain the estimate reads 24, 20, 16, 12, 8 and 4 hours, then IMMEDIATE |
| Metrics.HoursRendered | backend/main.py:96 | the f-string renders (6-i)*4 hours as its table entry |
| Selection.FindOverride | backend/main.py:201-202 | the generator search returns the first transition to the target, or none when no transition leads there |
| Selection.WeightedDraw | backend/main.py:206-212 | the cumulative loop returns the first transition whose running total reaches r, or none when r exceeds every running total |
| Selection.MostProbable | backend/main.py:214-215 | `max` returns the first transition of maximal probability |
| Selection.ChooseTransition | backend/main.py:199-215 | the choice is one of the transitions. It is the first one to the override when the override is set and matches; otherwise the first covering the draw; otherwise the first maximum |
| Selection.ChosenIsUnique | backend/main.py:199-215 | the selection rule determines a single transition |
| Selection.CumulativeMonotone | backend/main.py:207-209 | with non-negative probabilities the running total never decreases |
| Selection.FallbackIffDrawExceedsTotal | backend/main.py:207-215 | with non-negative probabilities the max fallback happens exactly when r exceeds the total probability |
| Selection.SingleTransitionAlwaysChosen | backend/main.py:199-215 | a technique with one transition (as T1021) always moves along it, whatever the override and the draw |
| Forecast.PredictionFor | backend/main.py:230-237 | a transition into the catalogue contributes one prediction, with the target's id and name and the transition's probability; any other transition contributes none |
| Forecast.PredictionsOf | backend/main.py:223-237 | there are no more predictions than transitions; the exact entries are stated by Forecast.PredictionsInTransitionOrder |
| Forecast.PredictionsInTransitionOrder | backend/main.py:229-236 | with every target catalogued, there is exactly one prediction per transition, in transition order, and entry `i` carries the target's id, its catalogue name and transition `i`'s probability |
| Forecast.InsertByProbability | backend/main.py:242 | an insertion adds exactly the new element, as multisets |
| Forecast.InsertHead | backend/main.py:242 | after an insertion the head is the new element unless the old head is strictly more likely |
| Forecast.InsertElements | backend/main.py:242 | an insertion adds the new element and nothing else |
| Forecast.InsertKeepsSorted | backend/main.py:242 | inserting into a descending list keeps it descending |
| Forecast.SortByProbabilityDesc | backend/main.py:242 | the sort is a permutation of its input |
| Forecast.SortIsDescending | backend/main.py:242 | the sorted list is ordered by probability, highest first |
| Forecast.CollectPredictions | backend/main.py:224-240 | the loop collects exactly the predictions of the transitions, and its running top is the top stage of those predictions |
| Forecast.PredictionsComeFromTransitions | backend/main.py:230-237 | every prediction names a catalogued technique and carries the probability of a transition into it; with all targets catalogued there are as many predictions as transitions (their order and names: Forecast.PredictionsInTransitionOrder) |
| Forecast.TopStage | backend/main.py:227-240 | the tracked top probability is non-negative and at least every prediction's, and the name stays "Unknown" while it is 0 |
| Forecast.TopStageIsFirstMax | backend/main.py:227-240 | the top probability is non-negative and at least every prediction's; it is ("Unknown", 0) when no probability is positive, and otherwise the name and probability of the first maximal prediction |
| Forecast.FirstMaxShifts | backend/main.py:242 | the first maximum of a list follows from the head and the first maximum of the tail |
| Forecast.SortedHeadIsFirstMax | backend/main.py:242 | the head of the stable descending sort is the first maximal prediction |
| Forecast.FirstMaxStageIsUnique | backend/main.py:238-240 | the first maximal prediction is unique |
| Forecast.FirstMaxDominates | backend/main.py:238-240 | the first maximum is at least every prediction, and strictly more than the earlier ones |
| Forecast.TopStageIsSortedHead | backend/main.py:227-242 | when some probability is positive, the stage named to the insight generator is the head of the published list, which is the one the risk score reads |
| Engine.Lookup | backend/main.py:247-248 | `dict.get` returns the entry when the key is present and the default otherwise |
| Engine.StagesFor | backend/main.py:223-242 | the published stages are the predictions of the technique's transitions, as a multiset, ordered by probability, highest first |
| Engine.Advance | backend/main.py:217-255 | the history grows by the new id, which becomes the current technique; the stages are the new technique's; the incident id, the detection time and the prevention flag are kept; the reasoning and the recommendation are set; the risk lies in 0..100 |
| Engine.AdvanceRefreshes | backend/main.py:244-255 | after an advance the reasoning and the recommendation are the insight's "reasoning" and "defensive_recommendation" answers about the new technique and its most likely next stage, defaulting to "Analyzing..." and "Monitor."; the score, trend, loss and time estimate are the metric report on the new technique and its published stages |
| Engine.AdvanceTo | backend/main.py:217-255 | the step-by-step update (append, prediction loop with its top-stage tracking, sort, insight call, metric refresh) produces exactly the advanced state |
| Engine.OfflineInsight | backend/llm_client.py:59 | the offline answer carries the four insight keys, so neither `.get` default applies, and recommends "Monitor for further anomalies." exactly when the current stage's name matches no keyword |
| Engine.OfflineAdvance | backend/main.py:244-248 | with the offline fallback, the new state's reasoning and recommendation are the fixed insight texts for the new technique's name, never the placeholders "Analyzing..." and "Monitor." |
| Engine.StagesWellFormed | backend/main.py:223-242 | every published next stage names a catalogued technique with a probability in [0, 1] |
| Engine.TransitionsFromSound | backend/main.py:108-124 | the transitions out of any technique lead into the catalogue with probabilities in [0, 1] |
| Engine.SortedPredictionsBounded | backend/main.py:230-242 | sorting the predictions of sound transitions keeps their targets catalogued and their probabilities in [0, 1] |
| Engine.StagesRiskInRange | backend/main.py:251-252 | the published risk score lies in 0..100 |
| Engine.InitialState | backend/main.py:138-175 | the incident id is "INC-" followed by the stamp; the history is T1566 alone, which is current; the stages are those of T1566; the attack is live, with the initial reasoning and action; the score, trend, loss and time estimate are the metric report on T1566 and its stages, so the risk lies in 0..100 |
| Engine.InitialStateWellFormed | backend/main.py:138-175 | the state a new incident starts in satisfies the engine invariant |
| Engine.StartStateWellFormed | backend/main.py:153-166 | a state whose history is the start technique, with that technique current, its stages published and its risk in range, satisfies the invariant |
| Engine.StepIsSound | backend/main.py:218-220 | a transition out of a catalogued technique leads one layer deeper, to a technique filed under its own id |
| Engine.AdvanceKeepsWellFormed | backend/main.py:217-255 | moving along any transition out of the current technique keeps the invariant: the history is a walk of the transition model from T1566 ending at the current technique, the stages are the current technique's, and the risk lies in 0..100 |
| Engine.KeyedAt | backend/main.py:31-40 | a catalogue entry carries its key as id |
| Engine.MitigationKeepsWellFormed | backend/main.py:265-267 | mitigating keeps the invariant |
| Engine.HistoryAtMostFive | backend/main.py:108-124 | a well-formed history has at most five entries and ends with the current technique's id |
| Engine.EndsOfPath | backend/main.py:193-196 | the path ends exactly at T1098, T1057, T1005 and T1486 |
| Engine.IncidentTwin.constructor | backend/main.py:127 | the engine starts without a simulation |
| Engine.IncidentTwin.StartIncident | backend/main.py:134-175 | the global simulation becomes the initial state, which is the answer, and the invariant holds |
| Engine.IncidentTwin.GetState | backend/main.py:178-181 | 404 "No active simulation" exactly when there is no simulation; otherwise the simulation |
| Engine.IncidentTwin.Evolve | backend/main.py:184-257 | no simulation gives 404, a prevented attack 400 and a technique without transitions 400 "End of simulation path reached", each leaving the state as it was. Otherwise the state advances along the transition the selection rule picks, the new state is the answer, and the invariant is kept |
| Engine.IncidentTwin.Mitigate | backend/main.py:260-269 | 404 without a simulation; otherwise the attack is prevented, the reasoning replaced, the next stages emptied and the new state answered; the invariant is kept |
| Engine.TargetInCatalogue | backend/main.py:218 | the `TECHNIQUES[...]` lookup of the chosen target always succeeds |
| Engine.MitigationBlocksEvolution | backend/main.py:189-190 | after a mitigation every evolution answers 400 "Attack already prevented", and the attack stays prevented with no next stages |
| Insight.Contains | backend/llm_client.py:64 | the empty string occurs in any name, and a longer string in no shorter one |
| Insight.ContainsIff | backend/llm_client.py:64 | the substring test holds exactly when some slice of the name equals the keyword |
| Insight.MakeInsight | backend/llm_client.py:65-70 | an insight has exactly the four keys reasoning, goal, constraint and defensive_recommendation, holding the given texts |
| Insight.Classify | backend/llm_client.py:64-98 | each insight is chosen exactly when its keyword occurs and no earlier keyword does. The order is Phishing, then Command or PowerShell, then Discovery, Lateral and Encrypted; with none of them the default is chosen |
| Insight.InsightOf | backend/llm_client.py:64-105 | every insight has the four keys, and the recommendation is "Monitor for further anomalies." exactly for the default |
| Insight.FallbackInsight | backend/llm_client.py:61-105 | the fallback always has the four keys, and recommends "Monitor for further anomalies." exactly when no keyword occurs in the name |
| Insight.ClassifyIsFirstMatch | backend/llm_client.py:64-98 | the selector is the first-match classifier over the ordered keyword table |
| Insight.PhishingWins | backend/llm_client.py:64-70 | a name containing "Phishing" gets the phishing insight whatever else it mentions |
| Graph.AddFirstKeepsNodes | frontend/src/components/AttackGraph.jsx:17-22 | `addNode` keeps the existing nodes as a prefix and adds at most one; it drops the new node exactly when its id is already seen; the id set grows by the new id |
| Graph.Dedup | frontend/src/components/AttackGraph.jsx:17-22 | repeated `addNode` calls leave no more nodes than candidates, and the first candidate always comes first |
| Graph.DedupSubset | frontend/src/components/AttackGraph.jsx:17-22 | every node kept is one of the candidates |
| Graph.DedupIdSet | frontend/src/components/AttackGraph.jsx:17-22 | the node ids are exactly the candidate ids |
| Graph.DedupDistinct | frontend/src/components/AttackGraph.jsx:17-22 | the node ids are pairwise distinct |
| Graph.DistinctCount | frontend/src/components/AttackGraph.jsx:16-22 | with distinct ids, the seen-id set has as many ids as there are nodes |
| Graph.DedupIds | frontend/src/components/AttackGraph.jsx:17-22 | the nodes have the candidates' ids, pairwise distinct, one node per distinct id, each node a candidate |
| Graph.DedupOfDistinct | frontend/src/components/AttackGraph.jsx:17-22 | candidates with distinct ids are all kept, in order |
| Graph.DedupIsFirstOccurrences | frontend/src/components/AttackGraph.jsx:17-22 | the node list is the first occurrence of each id, in candidate order |
| Graph.DedupElementsAreFirst | frontend/src/components/AttackGraph.jsx:17-22 | every node is the first candidate with its id |
| Graph.FirstCandidateWins | frontend/src/components/AttackGraph.jsx:17-22 | the first candidate with an id is kept, and it is the only node with that id |
| Graph.DedupStep | frontend/src/components/AttackGraph.jsx:17-22 | adding one more candidate is one `addNode` call |
| Graph.AddedIdPresent | frontend/src/components/AttackGraph.jsx:17-22 | once a candidate has been added its id stays in the seen-id set |
| Graph.GraphBuilder.constructor | frontend/src/components/AttackGraph.jsx:14-16 | the builder starts with no nodes, no links and an empty seen-id set |
| Graph.GraphBuilder.AddNode | frontend/src/components/AttackGraph.jsx:17-22 | the node is appended only when its id is new; the id joins the seen-id set; the links are untouched |
| Graph.GraphBuilder.PushHistory | frontend/src/components/AttackGraph.jsx:26-27 | one history round adds the history node and, after the first entry, the solid link from the previous entry, whose ends are both seen |
| Graph.GraphBuilder.AddHistory | frontend/src/components/AttackGraph.jsx:25-28 | the history loop leaves the nodes of the history candidates and exactly the solid links between consecutive entries |
| Graph.GraphBuilder.AddCurrent | frontend/src/components/AttackGraph.jsx:31-39 | the current step adds the current candidate and, for two or more entries, the solid link from the next-to-last entry to the current id |
| Graph.GraphBuilder.PushPrediction | frontend/src/components/AttackGraph.jsx:43-44 | one prediction round adds the predicted node if its id is new, and always a dashed link from the current id carrying the probability |
| Graph.GraphBuilder.AddPredictions | frontend/src/components/AttackGraph.jsx:42-45 | the prediction loop yields all the first-occurrence nodes, and appends to the links, in order, one dashed link per prediction from the current id carrying its probability |
| Graph.HistoryStep | frontend/src/components/AttackGraph.jsx:25-28 | a history round's candidate is the history node of that entry, and its link extends the history links by one |
| Graph.HistoryRound | frontend/src/components/AttackGraph.jsx:25-28 | one history round keeps the loop's node and link invariants |
| Graph.CurrentRound | frontend/src/components/AttackGraph.jsx:31-39 | the current step is one `addNode` call, and the next-to-last history entry is already seen when the extra link is pushed |
| Graph.PredictionRound | frontend/src/components/AttackGraph.jsx:42-45 | one prediction round keeps the loop's node and link invariants |
| Graph.GraphBuilder.PushPredictionRound | frontend/src/components/AttackGraph.jsx:42-45 | one round of the prediction loop takes its state after `j` predictions to its state after `j + 1`: one more candidate added by `addNode` and one more dashed link |
| Graph.PredictionLinksStep | frontend/src/components/AttackGraph.jsx:44 | each prediction round appends its dashed link |
| Graph.GraphOf | frontend/src/components/AttackGraph.jsx:14-45 | the nodes of a snapshot's graph are the first occurrence of each id among the history, current and prediction candidates, in that order |
| Graph.GraphOfParts | frontend/src/components/AttackGraph.jsx:14-45 | the candidates end with the prediction nodes, and the graph's nodes are the first occurrences of all candidates |
| Graph.BuildGraph | frontend/src/components/AttackGraph.jsx:8-45 | no snapshot gives no graph; a snapshot gives exactly the nodes and links described above, with no dangling link |
| Graph.LinkShape | frontend/src/components/AttackGraph.jsx:25-45 | links come in order. First len-1 solid links h[k]→h[k+1] without a probability; then one solid link h[len-2]→current when len > 1; then one dashed link current→prediction per prediction, with its probability, even when the prediction's node was dropped |
| Graph.CandidateIds | frontend/src/components/AttackGraph.jsx:25-45 | the candidate ids are the history ids, the current id and the prediction ids |
| Graph.NodeIds | frontend/src/components/AttackGraph.jsx:14-45 | node ids are pairwise distinct, and the node count is the number of distinct ids among history, current and predictions |
| Graph.LinkEnds | frontend/src/components/AttackGraph.jsx:25-45 | every link joins two ids the snapshot mentions |
| Graph.NoDanglingLinks | frontend/src/components/AttackGraph.jsx:25-45 | both ends of every link are node ids |
| Graph.PredictedNodesAreNew | frontend/src/components/AttackGraph.jsx:17-45 | a predicted node never has a history or current id: earlier writes win |
| Graph.CurrentInHistoryStaysHistory | frontend/src/components/AttackGraph.jsx:17-32 | when the current id is in the history, its only node is the history node (label the id, type history, probability 1) |
| Graph.CurrentNodeIffNew | frontend/src/components/AttackGraph.jsx:17-32 | a node of type current exists exactly when the current id is not in the history |
| Graph.AtMostOneCurrentNode | frontend/src/components/AttackGraph.jsx:17-32 | at most one node has type current |
| Graph.NodeProbabilitiesInRange | frontend/src/components/AttackGraph.jsx:24-45 | when the next stages' probabilities lie in [0, 1], so does every node's probability |
| Graph.BackendSnapshotShape | frontend/src/components/AttackGraph.jsx:33-38 | for a history ending with the current id, no node is of type current and the extra solid link repeats the last history link |
| Graph.ThreeStepScenario | frontend/src/components/AttackGraph.jsx:14-45 | history T1, T2, new current T3 and predictions T4, T5 give five nodes and the links T1→T2, T1→T3, T3→T4, T3→T5 |
| Graph.SingleStepScenario | frontend/src/components/AttackGraph.jsx:14-45 | a history holding only the current id, with no predictions, gives a single history node and no link |
| Drag.LaneX | frontend/src/components/AttackGraph.jsx:64-67 | the lane is 160 exactly for history, 400 exactly for current and 640 exactly for predicted, all inside the 800-wide canvas |
| Drag.LanesOrdered | frontend/src/components/AttackGraph.jsx:64-67 | the lanes run history, current, predicted from left to right, and two types share a lane only when they are equal |
| Drag.DragStarted | frontend/src/components/AttackGraph.jsx:141-145 | the node is pinned where it stands; only when no other drag is active is alpha target set to 0.3 and the simulation restarted |
| Drag.Dragged | frontend/src/components/AttackGraph.jsx:147-150 | the node is pinned at the pointer |
| Drag.DragEnded | frontend/src/components/AttackGraph.jsx:152-156 | the node is released; only when no other drag is active does alpha target drop to 0 |
| Drag.Gesture | frontend/src/components/AttackGraph.jsx:141-156 | a start, a move and an end with no other drag active leave the node unpinned at its position, and the simulation running towards alpha 0 |

## Left out

- The d3 force simulation is not modelled. That covers link distance, charge, centring, the `forceX` strength, alpha decay and tick integration (`AttackGraph.jsx:60-68`). It is a foreign floating-point library. Only the lane targets and the `fx`/`fy`/`alphaTarget` writes are modelled.
- SVG drawing, the glow filters and the per-tick attribute updates (`AttackGraph.jsx:48-58, 70-139`) are rendering only.
- `generate_incident_insight` (`backend/llm_client.py:10-59`) is an HTTP call to a language model, followed by JSON parsing. It is the `insight` parameter of the evolve step. It falls back to `get_fallback_insight(current_stage)` (line 59) in three cases: the model answers with a status other than 200 (line 48), the call or the parsing raises (lines 41-56), or the model cannot be reached. `Engine.OfflineInsight` is that fallback answer.
- `random.random()` and `datetime.now()` (`backend/main.py:154-156, 206`) are parameters: the draw `r`, the incident stamp and the detection time. The detection time is an opaque string.
- The FastAPI, CORS and uvicorn wiring is left out, and so is the constant `replay_validation` answer (`backend/main.py:18-27, 129-131, 271-292`). The frontend's `App.jsx`, `InsightPanel.jsx` and `RiskGauge.jsx`, its Tailwind configuration and the `debug_api.py` script are not part of this model.
- Floating point is modelled as exact reals. Rounding of the cumulative sum is not modelled, so the "floating point weirdness" the max fallback guards against can arise in the model only from a draw above the total.
- The start request's sector and alert type are accepted and never used, as in the code. The same holds for the evolution request's incident id.
- The simulation state is a value held by the engine object. Python mutates one global object in place. HTTP clients receive a serialized copy, so the sharing that matters is between request handlers, which the next lines cover.
- Each endpoint is modelled as one atomic step. FastAPI runs these synchronous handlers on a thread pool, so two requests can interleave on the global state. Two such interleavings are left out:
  - A mitigation can arrive while an evolution waits up to 5 s for the language model (`backend/llm_client.py:41-46`). It lands after the evolution's writes at `backend/main.py:219-242`. The evolution then overwrites the reasoning at line 247 and recomputes the metrics from the emptied stages at lines 251-255. The result is a prevented state that carries the new technique's reasoning.
  - A reply whose JSON is not an object is returned as parsed (`backend/llm_client.py:51-52`). Then `insight.get` raises at `backend/main.py:247`, and the request fails after the history, the current technique and the next stages were updated, with the old reasoning and metrics kept. The model's insight source always returns a string map, so this half-updated state does not arise.
- Engine.StartIncident: the initial placeholder metrics (20, "Increasing", 15000.0, "24 hours") are overwritten in the same call. The model states only the final values.
- Insight.FallbackInsight: the insight chosen for each catalogued technique name is not proved. The contract states the classifier's behaviour for any name instead.
- Forecast.SortByProbabilityDesc: stability is stated through its consequence for the head (`Forecast.SortedHeadIsFirstMax`), not as a general order-preservation property.
- Drag.Gesture: the composed gesture covers one pointer move. Each single handler is specified for any number of active drags.
