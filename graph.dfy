/** The data preparation of the attack graph view: a simulation-state
    snapshot becomes a node list (history, current, predicted; one node per
    id, the first one added wins) and a link list (solid history links, one
    solid link into the current technique, one dashed link per prediction). */
module Graph {
  import opened Models

  datatype NodeType = History | Current | Predicted
  datatype LinkStyle = Solid | Dashed

  datatype Node = Node(id: string, caption: string, nodeType: NodeType, prob: real)

  /** A link between two node ids; only dashed links carry a probability. */
  datatype Link = Link(source: string, target: string, style: LinkStyle, prob: Option<real>)

  datatype GraphData = GraphData(nodes: seq<Node>, links: seq<Link>)

  function IdsOf(ns: seq<Node>): set<string> {
    set n | n in ns :: n.id
  }

  ghost predicate DistinctIds(ns: seq<Node>) {
    forall a, b | 0 <= a < b < |ns| :: ns[a].id != ns[b].id
  }

  /** Every link starts and ends at a node of the graph. */
  ghost predicate NoDangling(g: GraphData) {
    forall l | l in g.links :: l.source in IdsOf(g.nodes) && l.target in IdsOf(g.nodes)
  }

  /** Both ends of every link are in `ids`. */
  ghost predicate Closed(links: seq<Link>, ids: set<string>) {
    forall l | l in links :: l.source in ids && l.target in ids
  }

  lemma ClosedGrow(links: seq<Link>, ids: set<string>, more: set<string>)
    requires Closed(links, ids) && ids <= more
    ensures Closed(links, more)
  {
  }

  lemma ClosedExtend(links: seq<Link>, l: Link, ids: set<string>)
    requires Closed(links, ids) && l.source in ids && l.target in ids
    ensures Closed(links + [l], ids)
  {
  }

  /** `addNode`: append a node unless a node of that id is already there. */
  function AddFirst(ns: seq<Node>, n: Node): seq<Node> {
    if n.id in IdsOf(ns) then ns else ns + [n]
  }

  /** `addNode` never replaces a node already present: it keeps the list as
      a prefix, drops the new node exactly when its id is already seen, and
      leaves the id set grown by the new id. */
  lemma AddFirstKeepsNodes(ns: seq<Node>, n: Node)
    ensures ns <= AddFirst(ns, n) && |AddFirst(ns, n)| <= |ns| + 1
    ensures |AddFirst(ns, n)| == |ns| <==> n.id in IdsOf(ns)
    ensures IdsOf(AddFirst(ns, n)) == IdsOf(ns) + {n.id}
  {
  }

  /** The nodes left after adding the candidates one by one: no more nodes
      than candidates, and the first candidate always comes first. */
  function Dedup(cs: seq<Node>): (r: seq<Node>)
    ensures |r| <= |cs|
    ensures cs != [] ==> r != [] && r[0] == cs[0]
    decreases |cs|
  {
    if cs == [] then [] else AddFirst(Dedup(cs[..|cs| - 1]), cs[|cs| - 1])
  }

  /** The candidate at `i` is the first with its id. */
  ghost predicate FirstOfId(cs: seq<Node>, i: int) {
    0 <= i < |cs| && forall j | 0 <= j < i :: cs[j].id != cs[i].id
  }

  /** Reference definition: the candidates whose id does not occur earlier, in order. */
  ghost function FirstOccurrences(cs: seq<Node>): seq<Node>
    decreases |cs|
  {
    if cs == [] then []
    else
      var init := cs[..|cs| - 1];
      FirstOccurrences(init) + (if cs[|cs| - 1].id in IdsOf(init) then [] else [cs[|cs| - 1]])
  }

  lemma IdsOfAppend(ns: seq<Node>, n: Node)
    ensures IdsOf(ns + [n]) == IdsOf(ns) + {n.id}
  {
  }

  /** Every node of the result is one of the candidates. */
  lemma {:induction false} DedupSubset(cs: seq<Node>)
    ensures forall n | n in Dedup(cs) :: n in cs
    decreases |cs|
  {
    if cs != [] {
      var init := cs[..|cs| - 1];
      DedupSubset(init);
      assert forall n | n in init :: n in cs;
    }
  }

  /** The result has exactly the ids of the candidates. */
  lemma {:induction false} DedupIdSet(cs: seq<Node>)
    ensures IdsOf(Dedup(cs)) == IdsOf(cs)
    decreases |cs|
  {
    if cs != [] {
      var init := cs[..|cs| - 1];
      var last := cs[|cs| - 1];
      DedupIdSet(init);
      assert cs == init + [last];
      IdsOfAppend(init, last);
      IdsOfAppend(Dedup(init), last);
    }
  }

  /** No id occurs twice in the result. */
  lemma {:induction false} DedupDistinct(cs: seq<Node>)
    ensures DistinctIds(Dedup(cs))
    decreases |cs|
  {
    if cs != [] {
      var init := cs[..|cs| - 1];
      var last := cs[|cs| - 1];
      var d := Dedup(init);
      DedupDistinct(init);
      if last.id !in IdsOf(d) {
        var r := d + [last];
        forall a, b | 0 <= a < b < |r| ensures r[a].id != r[b].id {
          if b == |d| {
            assert r[a] in d;
          }
        }
      }
    }
  }

  /** With distinct ids there are as many ids as nodes. */
  lemma {:induction false} DistinctCount(ns: seq<Node>)
    requires DistinctIds(ns)
    ensures |IdsOf(ns)| == |ns|
    decreases |ns|
  {
    if ns != [] {
      var init := ns[..|ns| - 1];
      var last := ns[|ns| - 1];
      assert ns == init + [last];
      LastIdFresh(ns);
      IdsOfAppend(init, last);
      DistinctCount(init);
    }
  }

  /** In a list of distinct ids the last id is not among the earlier ones,
      and the earlier ones are distinct too. */
  lemma LastIdFresh(ns: seq<Node>)
    requires DistinctIds(ns) && ns != []
    ensures DistinctIds(ns[..|ns| - 1])
    ensures ns[|ns| - 1].id !in IdsOf(ns[..|ns| - 1])
  {
  }

  /** De-duplication keeps every id once and no other id. */
  lemma DedupIds(cs: seq<Node>)
    ensures IdsOf(Dedup(cs)) == IdsOf(cs)
    ensures DistinctIds(Dedup(cs))
    ensures |Dedup(cs)| == |IdsOf(cs)|
    ensures forall n | n in Dedup(cs) :: n in cs
  {
    DedupSubset(cs);
    DedupIdSet(cs);
    DedupDistinct(cs);
    DistinctCount(Dedup(cs));
  }

  /** Candidates with distinct ids are all kept, in order. */
  lemma {:induction false} DedupOfDistinct(cs: seq<Node>)
    requires DistinctIds(cs)
    ensures Dedup(cs) == cs
    decreases |cs|
  {
    if cs != [] {
      var init := cs[..|cs| - 1];
      var last := cs[|cs| - 1];
      assert DistinctIds(init);
      DedupOfDistinct(init);
      assert last.id !in IdsOf(init) by {
        forall n | n in init ensures n.id != last.id {
          var a :| 0 <= a < |init| && init[a] == n;
          assert cs[a] == n;
        }
      }
      assert init + [last] == cs;
    }
  }

  /** De-duplication is the reference filter: first occurrences, in candidate order. */
  lemma {:induction false} DedupIsFirstOccurrences(cs: seq<Node>)
    ensures Dedup(cs) == FirstOccurrences(cs)
    decreases |cs|
  {
    if cs != [] {
      var init := cs[..|cs| - 1];
      DedupIsFirstOccurrences(init);
      DedupIdSet(init);
    }
  }

  /** A candidate whose id does not occur earlier is the first with its id. */
  lemma FreshIsFirst(cs: seq<Node>, i: int)
    requires 0 <= i < |cs| && cs[i].id !in IdsOf(cs[..i])
    ensures FirstOfId(cs, i)
  {
  }

  /** The first of its id in a prefix is the first of its id in the whole list. */
  lemma FirstInPrefix(cs: seq<Node>, i: int)
    requires cs != [] && FirstOfId(cs[..|cs| - 1], i)
    ensures FirstOfId(cs, i) && cs[i] == cs[..|cs| - 1][i]
  {
  }

  /** Each node of the result is the first candidate with its id. */
  lemma {:induction false} DedupElementsAreFirst(cs: seq<Node>)
    ensures forall n | n in Dedup(cs) :: exists i :: FirstOfId(cs, i) && cs[i] == n
    decreases |cs|
  {
    if cs != [] {
      var init := cs[..|cs| - 1];
      var last := cs[|cs| - 1];
      DedupElementsAreFirst(init);
      DedupIdSet(init);
      forall n | n in Dedup(cs) ensures exists i :: FirstOfId(cs, i) && cs[i] == n {
        if n in Dedup(init) {
          var i :| FirstOfId(init, i) && init[i] == n;
          FirstInPrefix(cs, i);
        } else {
          FreshIsFirst(cs, |cs| - 1);
        }
      }
    }
  }

  /** The first candidate with an id is in the result, and is the only node of that id. */
  lemma {:induction false} FirstCandidateWins(cs: seq<Node>, i: int)
    requires FirstOfId(cs, i)
    ensures cs[i] in Dedup(cs)
    ensures forall n | n in Dedup(cs) && n.id == cs[i].id :: n == cs[i]
    decreases |cs|
  {
    var init := cs[..|cs| - 1];
    DedupIdSet(init);
    if i == |cs| - 1 {
      assert cs[i].id !in IdsOf(init) by {
        forall n | n in init ensures n.id != cs[i].id {
          var j :| 0 <= j < |init| && init[j] == n;
          assert cs[j] == n;
        }
      }
    } else {
      assert FirstOfId(init, i);
      FirstCandidateWins(init, i);
    }
    DedupDistinct(cs);
    forall n | n in Dedup(cs) && n.id == cs[i].id ensures n == cs[i] {
      var d := Dedup(cs);
      var a :| 0 <= a < |d| && d[a] == n;
      var b :| 0 <= b < |d| && d[b] == cs[i];
      assert a == b;
    }
  }

  function HistoryNode(id: string): Node {
    Node(id, id, History, 1.0)
  }

  function HistoryNodes(h: seq<string>): seq<Node> {
    seq(|h|, i requires 0 <= i < |h| => HistoryNode(h[i]))
  }

  function CurrentNode(t: Technique): Node {
    Node(t.id, t.name, Current, 1.0)
  }

  function PredictionNode(p: NextStagePrediction): Node {
    Node(p.techniqueId, p.techniqueName, Predicted, p.probability)
  }

  function PredictionNodes(ps: seq<NextStagePrediction>): seq<Node> {
    seq(|ps|, j requires 0 <= j < |ps| => PredictionNode(ps[j]))
  }

  /** From position `n` on, the candidates are the prediction nodes, in order. */
  ghost predicate PredictedAt(cs: seq<Node>, n: nat, ps: seq<NextStagePrediction>) {
    n <= |cs| && cs[n..] == PredictionNodes(ps)
  }

  /** Every `addNode` call of the builder, in order. */
  function Candidates(s: SimulationState): seq<Node> {
    HistoryNodes(s.history) + [CurrentNode(s.currentTechnique)] + PredictionNodes(s.nextPossibleStages)
  }

  /** The solid link from each history entry to the next. */
  function HistoryLinks(h: seq<string>): seq<Link> {
    if |h| <= 1 then []
    else seq(|h| - 1, k requires 0 <= k < |h| - 1 => Link(h[k], h[k + 1], Solid, None))
  }

  /** The link the history loop pushes at entry `i`: none for the first entry. */
  function HistoryLinkAt(h: seq<string>, i: nat): seq<Link>
    requires i < |h|
  {
    if i > 0 then [Link(h[i - 1], h[i], Solid, None)] else []
  }

  /** The solid link into the current technique, from the next-to-last history entry. */
  function CurrentLinks(h: seq<string>, current: Technique): seq<Link> {
    if |h| > 1 then [Link(h[|h| - 2], current.id, Solid, None)] else []
  }

  function PredictionLink(from: string, p: NextStagePrediction): Link {
    Link(from, p.techniqueId, Dashed, Some(p.probability))
  }

  function PredictionLinks(from: string, ps: seq<NextStagePrediction>): seq<Link> {
    seq(|ps|, j requires 0 <= j < |ps| => PredictionLink(from, ps[j]))
  }

  function ExpectedLinks(s: SimulationState): seq<Link> {
    HistoryLinks(s.history) + CurrentLinks(s.history, s.currentTechnique)
      + PredictionLinks(s.currentTechnique.id, s.nextPossibleStages)
  }

  /** The graph the view draws for a snapshot: every node is one of the
      builder's candidates, and there is a node for every id the snapshot
      mentions and for no other id. */
  function GraphOf(s: SimulationState): (g: GraphData)
    ensures g.nodes == FirstOccurrences(Candidates(s))
  {
    DedupIsFirstOccurrences(Candidates(s));
    GraphData(Dedup(Candidates(s)), ExpectedLinks(s))
  }

  /** The builder's closure state: the node and link arrays and the seen-id set. */
  class GraphBuilder {
    var nodes: seq<Node>
    var links: seq<Link>
    var nodeSet: set<string>

    ghost predicate Valid()
      reads this
    {
      nodeSet == IdsOf(nodes)
    }

    constructor()
      ensures nodes == [] && links == [] && nodeSet == {} && Valid()
    {
      nodes, links, nodeSet := [], [], {};
    }

    method AddNode(id: string, caption: string, nodeType: NodeType, prob: real)
      requires Valid()
      modifies this
      ensures Valid()
      ensures nodes == AddFirst(old(nodes), Node(id, caption, nodeType, prob))
      ensures nodeSet == old(nodeSet) + {id}
      ensures links == old(links)
    {
      if id !in nodeSet {
        nodes := nodes + [Node(id, caption, nodeType, prob)];
        nodeSet := nodeSet + {id};
      }
    }

    /** Every link pushed so far joins two ids already seen. */
    ghost predicate LinksClosed()
      reads this
    {
      Closed(links, nodeSet)
    }

    /** The callback of the history loop: the node of entry `i`, and the
        solid link to it from the previous entry. */
    method PushHistory(h: seq<string>, i: nat)
      requires Valid() && LinksClosed() && i < |h|
      requires i > 0 ==> h[i - 1] in nodeSet
      modifies this
      ensures Valid() && LinksClosed() && h[i] in nodeSet
      ensures nodes == AddFirst(old(nodes), HistoryNode(h[i]))
      ensures links == old(links) + HistoryLinkAt(h, i)
    {
      var seen := nodeSet;
      AddNode(h[i], h[i], History, 1.0);
      ClosedGrow(links, seen, nodeSet);
      if i > 0 {
        ClosedExtend(links, Link(h[i - 1], h[i], Solid, None), nodeSet);
        links := links + [Link(h[i - 1], h[i], Solid, None)];
      }
    }

    /** The history loop: a history node per entry, and a solid link from the
        previous entry to each entry after the first. */
    method AddHistory(s: SimulationState)
      requires Valid() && nodes == [] && links == []
      modifies this
      ensures Valid() && LinksClosed()
      ensures nodes == Dedup(Candidates(s)[..|s.history|])
      ensures links == HistoryLinks(s.history)
    {
      var h := s.history;
      ghost var cs := Candidates(s);
      var i := 0;
      while i < |h|
        invariant 0 <= i <= |h|
        invariant Valid() && LinksClosed()
        invariant i > 0 ==> h[i - 1] in nodeSet
        invariant nodes == Dedup(cs[..i])
        invariant links == HistoryLinks(h[..i])
      {
        ghost var before, done := nodes, links;
        PushHistory(h, i);
        HistoryRound(s, i, before, done, nodes, links);
        i := i + 1;
      }
      assert h[..|h|] == h;
    }

    /** The current technique's node, and the solid link into it from the
        next-to-last history entry. */
    method AddCurrent(s: SimulationState)
      requires Valid() && LinksClosed()
      requires nodes == Dedup(Candidates(s)[..|s.history|])
      requires links == HistoryLinks(s.history)
      modifies this
      ensures Valid() && LinksClosed()
      ensures nodes == Dedup(Candidates(s)[..|s.history| + 1])
      ensures links == HistoryLinks(s.history) + CurrentLinks(s.history, s.currentTechnique)
      ensures s.currentTechnique.id in nodeSet
    {
      var h := s.history;
      var current := s.currentTechnique;
      ghost var before, seen := nodes, nodeSet;
      AddNode(current.id, current.name, Current, 1.0);
      CurrentRound(s, before, nodes);
      ClosedGrow(links, seen, nodeSet);
      if |h| > 0 {
        if |h| > 1 {
          ClosedExtend(links, Link(h[|h| - 2], current.id, Solid, None), nodeSet);
          links := links + [Link(h[|h| - 2], current.id, Solid, None)];
        }
      }
    }

    /** The callback of the prediction loop: the predicted node, and the
        dashed link to it from the current technique. */
    method PushPrediction(from: string, p: NextStagePrediction)
      requires Valid() && LinksClosed() && from in nodeSet
      modifies this
      ensures Valid() && LinksClosed() && from in nodeSet
      ensures nodes == AddFirst(old(nodes), PredictionNode(p))
      ensures links == old(links) + [PredictionLink(from, p)]
    {
      var seen := nodeSet;
      AddNode(p.techniqueId, p.techniqueName, Predicted, p.probability);
      ClosedGrow(links, seen, nodeSet);
      ClosedExtend(links, PredictionLink(from, p), nodeSet);
      links := links + [PredictionLink(from, p)];
    }

    /** The prediction loop: a predicted node per stage (unless its id is
        already there), and a dashed link from the current technique to each,
        with its probability. */
    method AddPredictions(s: SimulationState, ghost cs: seq<Node>, ghost n: nat)
      requires Valid() && LinksClosed()
      requires PredictedAt(cs, n, s.nextPossibleStages)
      requires nodes == Dedup(cs[..n])
      requires s.currentTechnique.id in nodeSet
      modifies this
      ensures Valid() && LinksClosed()
      ensures nodes == Dedup(cs)
      ensures links == old(links) + PredictionLinks(s.currentTechnique.id, s.nextPossibleStages)
    {
      ghost var base := links;
      var from := s.currentTechnique.id;
      var ps := s.nextPossibleStages;
      var j := 0;
      assert ps[..0] == [];
      while j < |ps|
        invariant j <= |ps|
        invariant PredictionsSoFar(cs, n, from, ps, j, base)
      {
        PushPredictionRound(cs, n, from, ps, j, base);
        j := j + 1;
      }
      PredictionsFinished(cs, n, from, ps, base);
    }

    /** The prediction loop's state after `j` rounds: the nodes of the
        candidates up to the `j`-th prediction, and the first `j` dashed links. */
    ghost predicate PredictionsSoFar(cs: seq<Node>, n: nat, from: string, ps: seq<NextStagePrediction>,
                                     j: nat, base: seq<Link>)
      reads this
    {
      && PredictedAt(cs, n, ps) && j <= |ps|
      && Valid() && LinksClosed() && from in nodeSet
      && nodes == Dedup(cs[..n + j]) && links == base + PredictionLinks(from, ps[..j])
    }

    /** One round of the prediction loop, from the loop's state at `j` to its
        state at `j + 1`. */
    method PushPredictionRound(ghost cs: seq<Node>, ghost n: nat, from: string,
                               ps: seq<NextStagePrediction>, j: nat, ghost base: seq<Link>)
      requires j < |ps| && PredictionsSoFar(cs, n, from, ps, j, base)
      modifies this
      ensures PredictionsSoFar(cs, n, from, ps, j + 1, base)
    {
      ghost var before, done := nodes, links;
      PushPrediction(from, ps[j]);
      PredictionRound(cs, n, n + j, from, ps, j, base, before, done, nodes, links);
    }
  }

  /** When the prediction loop ends, it has added every candidate and every
      dashed link. */
  lemma PredictionsFinished(cs: seq<Node>, n: nat, from: string, ps: seq<NextStagePrediction>, base: seq<Link>)
    requires PredictedAt(cs, n, ps)
    ensures Dedup(cs[..n + |ps|]) == Dedup(cs)
    ensures base + PredictionLinks(from, ps[..|ps|]) == base + PredictionLinks(from, ps)
  {
    assert cs[..n + |ps|] == cs;
    assert ps[..|ps|] == ps;
  }

  /** One round of the prediction loop keeps its two invariants. */
  lemma PredictionRound(cs: seq<Node>, n: nat, k: nat, from: string, ps: seq<NextStagePrediction>, j: nat,
                        base: seq<Link>, before: seq<Node>, done: seq<Link>, after: seq<Node>, next: seq<Link>)
    requires PredictedAt(cs, n, ps) && j < |ps| && k == n + j
    requires before == Dedup(cs[..k]) && after == AddFirst(before, PredictionNode(ps[j]))
    requires done == base + PredictionLinks(from, ps[..j]) && next == done + [PredictionLink(from, ps[j])]
    ensures after == Dedup(cs[..k + 1])
    ensures next == base + PredictionLinks(from, ps[..j + 1])
  {
    DedupStep(cs, k);
    PredictionLinksStep(from, ps, j);
  }

  /** The graph of a snapshot, section by section. */
  lemma GraphOfParts(s: SimulationState)
    ensures PredictedAt(Candidates(s), |s.history| + 1, s.nextPossibleStages)
    ensures GraphOf(s).nodes == Dedup(Candidates(s))
  {
  }

  /** The dashed links grow by one per prediction. */
  lemma PredictionLinksStep(from: string, ps: seq<NextStagePrediction>, j: nat)
    requires j < |ps|
    ensures PredictionLinks(from, ps[..j + 1])
      == PredictionLinks(from, ps[..j]) + [PredictionLink(from, ps[j])]
  {
  }

  /** Adding one more candidate extends the de-duplicated prefix by `addNode`. */
  lemma DedupStep(cs: seq<Node>, i: nat)
    requires i < |cs|
    ensures Dedup(cs[..i + 1]) == AddFirst(Dedup(cs[..i]), cs[i])
  {
    assert cs[..i + 1][..i] == cs[..i];
  }

  /** A candidate already added has its id among the nodes. */
  lemma AddedIdPresent(cs: seq<Node>, k: nat, i: nat)
    requires k < i <= |cs|
    ensures cs[k].id in IdsOf(Dedup(cs[..i]))
  {
    DedupIdSet(cs[..i]);
    assert cs[..i][k] == cs[k];
  }

  /** The history loop at step `i`: the candidate it adds and the links so far. */
  lemma HistoryStep(s: SimulationState, i: nat)
    requires i < |s.history|
    ensures Candidates(s)[i] == HistoryNode(s.history[i])
    ensures HistoryLinks(s.history[..i + 1]) == HistoryLinks(s.history[..i]) + HistoryLinkAt(s.history, i)
  {
    var h := s.history;
    assert Candidates(s)[i] == HistoryNodes(h)[i];
    if i > 0 {
      var l := HistoryLinks(h[..i + 1]);
      var r := HistoryLinks(h[..i]) + [Link(h[i - 1], h[i], Solid, None)];
      assert |l| == |r|;
      forall k | 0 <= k < |l| ensures l[k] == r[k] {
        if k < i - 1 {
          assert h[..i][k] == h[k] && h[..i][k + 1] == h[k + 1];
        }
      }
    }
  }

  /** The current technique's `addNode` call extends the de-duplicated prefix,
      and the next-to-last history entry is already among the nodes. */
  lemma CurrentRound(s: SimulationState, before: seq<Node>, after: seq<Node>)
    requires before == Dedup(Candidates(s)[..|s.history|])
    requires after == AddFirst(before, CurrentNode(s.currentTechnique))
    ensures after == Dedup(Candidates(s)[..|s.history| + 1])
    ensures |s.history| > 1 ==> s.history[|s.history| - 2] in IdsOf(before)
  {
    var cs, h := Candidates(s), s.history;
    DedupStep(cs, |h|);
    assert cs[|h|] == CurrentNode(s.currentTechnique);
    if |h| > 1 {
      AddedIdPresent(cs, |h| - 2, |h|);
      HistoryStep(s, |h| - 2);
    }
  }

  /** One round of the history loop keeps its two invariants. */
  lemma HistoryRound(s: SimulationState, i: nat, before: seq<Node>, done: seq<Link>, after: seq<Node>, next: seq<Link>)
    requires i < |s.history|
    requires before == Dedup(Candidates(s)[..i]) && after == AddFirst(before, HistoryNode(s.history[i]))
    requires done == HistoryLinks(s.history[..i]) && next == done + HistoryLinkAt(s.history, i)
    ensures after == Dedup(Candidates(s)[..i + 1])
    ensures next == HistoryLinks(s.history[..i + 1])
  {
    DedupStep(Candidates(s), i);
    HistoryStep(s, i);
  }

  /** Build the graph for a snapshot, or nothing when there is no snapshot.
      Every link is pushed only once both its ends are in the seen-id set. */
  method BuildGraph(snapshot: Option<SimulationState>) returns (g: Option<GraphData>)
    ensures snapshot.None? ==> g == None
    ensures snapshot.Some? ==> g == Some(GraphOf(snapshot.value))
    ensures g.Some? ==> NoDangling(g.value)
  {
    if snapshot.None? {
      return None;
    }
    var s := snapshot.value;
    var b := new GraphBuilder();
    b.AddHistory(s);
    b.AddCurrent(s);
    GraphOfParts(s);
    b.AddPredictions(s, Candidates(s), |s.history| + 1);
    g := Some(GraphData(b.nodes, b.links));
  }

  /** The solid links come first, one per history step plus one into the current
      technique when the history has two entries or more; then one dashed link
      per prediction, from the current technique, carrying its probability. */
  lemma LinkShape(s: SimulationState)
    ensures var h := s.history; var solid := if |h| == 0 then 0 else (|h| - 1) + (if |h| > 1 then 1 else 0);
      && |ExpectedLinks(s)| == solid + |s.nextPossibleStages|
      && (forall k | 0 <= k < solid :: ExpectedLinks(s)[k].style == Solid && ExpectedLinks(s)[k].prob == None)
      && (forall k | 0 <= k < |h| - 1 :: ExpectedLinks(s)[k].source == h[k] && ExpectedLinks(s)[k].target == h[k + 1])
      && (|h| > 1 ==> ExpectedLinks(s)[|h| - 1] == Link(h[|h| - 2], s.currentTechnique.id, Solid, None))
      && (forall j | 0 <= j < |s.nextPossibleStages| ::
            ExpectedLinks(s)[solid + j] == Link(s.currentTechnique.id, s.nextPossibleStages[j].techniqueId,
                                                Dashed, Some(s.nextPossibleStages[j].probability)))
  {
  }

  /** The ids a snapshot mentions: its history, its current technique and its predictions. */
  ghost function SnapshotIds(s: SimulationState): set<string> {
    (set x | x in s.history) + {s.currentTechnique.id} + (set p | p in s.nextPossibleStages :: p.techniqueId)
  }

  /** The candidates carry exactly the ids the snapshot mentions. */
  lemma CandidateIds(s: SimulationState)
    ensures IdsOf(Candidates(s)) == SnapshotIds(s)
  {
    var cs := Candidates(s);
    var h, ps := s.history, s.nextPossibleStages;
    forall x | x in SnapshotIds(s) ensures x in IdsOf(cs) {
      if x in h {
        var i :| 0 <= i < |h| && h[i] == x;
        assert cs[i].id == x;
      } else if x == s.currentTechnique.id {
        assert cs[|h|].id == x;
      } else {
        var p :| p in ps && p.techniqueId == x;
        var j :| 0 <= j < |ps| && ps[j] == p;
        assert cs[|h| + 1 + j].id == x;
      }
    }
    forall x | x in IdsOf(cs) ensures x in SnapshotIds(s) {
      var n :| n in cs && n.id == x;
      var k :| 0 <= k < |cs| && cs[k] == n;
      if k < |h| {
        assert h[k] == x;
      } else if k > |h| {
        assert ps[k - |h| - 1] in ps;
      }
    }
  }

  /** The node ids are distinct and are exactly the history ids, the current id
      and the predicted ids; so there are as many nodes as distinct ids. */
  lemma NodeIds(s: SimulationState)
    ensures DistinctIds(GraphOf(s).nodes)
    ensures IdsOf(GraphOf(s).nodes) == SnapshotIds(s)
    ensures |GraphOf(s).nodes| == |SnapshotIds(s)|
  {
    DedupIds(Candidates(s));
    CandidateIds(s);
  }

  /** Every link joins two ids the snapshot mentions. */
  lemma LinkEnds(s: SimulationState)
    ensures Closed(ExpectedLinks(s), SnapshotIds(s))
  {
  }

  /** No link dangles: both ends of every link are node ids. */
  lemma NoDanglingLinks(s: SimulationState)
    ensures NoDangling(GraphOf(s))
  {
    NodeIds(s);
    LinkEnds(s);
  }

  /** First write wins: each node is the first candidate with its id, so a
      predicted node never replaces a history or current node. */
  lemma PredictedNodesAreNew(s: SimulationState)
    ensures forall n | n in GraphOf(s).nodes && n.nodeType == Predicted ::
      n.id !in s.history && n.id != s.currentTechnique.id
  {
    var cs := Candidates(s);
    var h := s.history;
    DedupElementsAreFirst(cs);
    forall n | n in GraphOf(s).nodes && n.nodeType == Predicted
      ensures n.id !in h && n.id != s.currentTechnique.id
    {
      var i :| FirstOfId(cs, i) && cs[i] == n;
      assert i > |h|;
      assert cs[|h|].id != n.id;
      forall k | 0 <= k < |h| ensures h[k] != n.id {
        assert cs[k].id == h[k];
      }
    }
  }

  /** When the current id already occurs in the history, its node keeps the
      history entry: type history, label the id, probability 1. */
  lemma CurrentInHistoryStaysHistory(s: SimulationState)
    requires s.currentTechnique.id in s.history
    ensures var id := s.currentTechnique.id;
      && Node(id, id, History, 1.0) in GraphOf(s).nodes
      && forall n | n in GraphOf(s).nodes && n.id == id :: n == Node(id, id, History, 1.0)
  {
    var h := s.history;
    var id := s.currentTechnique.id;
    var i := IndexOf(h, id);
    var cs := Candidates(s);
    forall j | 0 <= j < i ensures cs[j].id != cs[i].id {
      assert cs[j].id == h[j] && h[..i][j] == h[j];
    }
    FirstCandidateWins(cs, i);
  }

  /** There is a node of type current exactly when the current id is not in
      the history. */
  lemma CurrentNodeIffNew(s: SimulationState)
    ensures (exists n | n in GraphOf(s).nodes :: n.nodeType == Current) <==> s.currentTechnique.id !in s.history
  {
    var cs := Candidates(s);
    var h := s.history;
    var id := s.currentTechnique.id;
    DedupSubset(cs);
    if id in h {
      CurrentInHistoryStaysHistory(s);
      forall n | n in GraphOf(s).nodes ensures n.nodeType != Current {
        var k :| 0 <= k < |cs| && cs[k] == n;
        assert n.nodeType == Current ==> k == |h|;
        assert k == |h| ==> n.id == id;
      }
    } else {
      forall j | 0 <= j < |h| ensures cs[j].id != cs[|h|].id {
        assert cs[j].id == h[j];
      }
      FirstCandidateWins(cs, |h|);
    }
  }

  /** At most one node has type current: only the current technique's
      candidate has that type. */
  lemma AtMostOneCurrentNode(s: SimulationState)
    ensures forall a, b | a in GraphOf(s).nodes && b in GraphOf(s).nodes
                          && a.nodeType == Current && b.nodeType == Current :: a == b
  {
    var cs := Candidates(s);
    DedupSubset(cs);
    forall a | a in GraphOf(s).nodes && a.nodeType == Current
      ensures a == CurrentNode(s.currentTechnique)
    {
      var k :| 0 <= k < |cs| && cs[k] == a;
      assert k == |s.history|;
    }
  }

  /** With the probabilities of the next stages in [0, 1], so is every
      node's probability: history and current nodes carry 1. */
  lemma NodeProbabilitiesInRange(s: SimulationState)
    requires forall p | p in s.nextPossibleStages :: 0.0 <= p.probability <= 1.0
    ensures forall n | n in GraphOf(s).nodes :: 0.0 <= n.prob <= 1.0
  {
    var cs := Candidates(s);
    var h, ps := s.history, s.nextPossibleStages;
    DedupSubset(cs);
    forall n | n in GraphOf(s).nodes ensures 0.0 <= n.prob <= 1.0 {
      var k :| 0 <= k < |cs| && cs[k] == n;
      if k > |h| {
        assert ps[k - |h| - 1] in ps;
      }
    }
  }

  /** With the backend's snapshots, whose history ends with the current id,
      no node has type current and the link into the current technique repeats
      the last history link. */
  lemma BackendSnapshotShape(s: SimulationState)
    requires s.history != [] && s.history[|s.history| - 1] == s.currentTechnique.id
    ensures forall n | n in GraphOf(s).nodes :: n.nodeType != Current
    ensures |s.history| > 1 ==> GraphOf(s).links[|s.history| - 2] == GraphOf(s).links[|s.history| - 1]
  {
    CurrentNodeIffNew(s);
    LinkShape(s);
  }

  /** Two history entries, a new current technique and two predictions, all
      with distinct ids: every candidate
      becomes a node, and the solid link into the current technique starts at
      the first history entry. */
  lemma ThreeStepScenario(s: SimulationState, t1: string, t2: string, t4: string, t5: string, p4: real, p5: real)
    requires s.history == [t1, t2]
    requires s.nextPossibleStages == [NextStagePrediction(t4, t4, p4), NextStagePrediction(t5, t5, p5)]
    requires AllDistinct([t1, t2, s.currentTechnique.id, t4, t5])
    ensures GraphOf(s).nodes == [
      Node(t1, t1, History, 1.0), Node(t2, t2, History, 1.0), CurrentNode(s.currentTechnique),
      Node(t4, t4, Predicted, p4), Node(t5, t5, Predicted, p5)]
    ensures GraphOf(s).links == [
      Link(t1, t2, Solid, None),
      Link(t1, s.currentTechnique.id, Solid, None),
      Link(s.currentTechnique.id, t4, Dashed, Some(p4)),
      Link(s.currentTechnique.id, t5, Dashed, Some(p5))]
  {
    var cs := Candidates(s);
    assert cs == [Node(t1, t1, History, 1.0), Node(t2, t2, History, 1.0), CurrentNode(s.currentTechnique),
                  Node(t4, t4, Predicted, p4), Node(t5, t5, Predicted, p5)];
    var ids := [t1, t2, s.currentTechnique.id, t4, t5];
    assert forall k | 0 <= k < 5 :: cs[k].id == ids[k];
    DedupOfDistinct(cs);
  }

  ghost predicate AllDistinct(xs: seq<string>) {
    forall a, b | 0 <= a < b < |xs| :: xs[a] != xs[b]
  }

  /** A history holding only the current technique and no predictions: one
      node, of type history, and no link. */
  lemma SingleStepScenario(s: SimulationState)
    requires s.history == [s.currentTechnique.id] && s.nextPossibleStages == []
    ensures GraphOf(s).nodes == [Node(s.currentTechnique.id, s.currentTechnique.id, History, 1.0)]
    ensures GraphOf(s).links == []
  {
    var id := s.currentTechnique.id;
    var c0 := Node(id, id, History, 1.0);
    var cs := Candidates(s);
    assert cs == [c0, CurrentNode(s.currentTechnique)];
    assert cs[..1] == [c0];
    assert [c0][..0] == [];
    assert Dedup([c0]) == [c0];
    assert c0 in [c0];
    assert id in IdsOf([c0]);
  }
}
