/** The transformation as a whole, as a function of the diagram and its data
    dictionary: one processing activity per node, `following` edges from the
    flows, one flow element per flow, one trace per node, and the dictionary
    without its three GDPR label types. */
module Transformation {
  import opened JavaStrings
  import opened Model
  import opened Labels
  import opened Registry
  import opened Resolvers

  // ---------------------------------------------------------------------
  // Nodes
  // ---------------------------------------------------------------------

  /** `p` is the processing activity made for `node`, before any flow is wired. */
  predicate MadeFor(p: Processing, node: Node) {
    p.id == node.id && p.entityName == node.name && ProcessingKindOf(node) == Ok(p.kind) && p.following == []
  }

  /** What transforming `nodes` from `c` did to reach `c'`: one processing
      activity appended per node, in node order, made for that node, and the
      invariants kept. */
  predicate NodesStep(c: Ctx, nodes: seq<Node>, c': Ctx) {
    Valid(c') && NodesMade(c, nodes, c')
  }

  /** The shape part of `NodesStep`, without the invariants: the activities
      appended after those of `c` are made for `nodes`, one each, in order. */
  predicate NodesMade(c: Ctx, nodes: seq<Node>, c': Ctx) {
    var n := |c.laf.processing|;
    && n <= |c'.laf.processing|
    && c'.laf.processing[..n] == c.laf.processing
    && MadeForAll(c'.laf.processing[n..], nodes)
  }

  /** `ps[i]` is made for `nodes[i]`, for every `i`. */
  predicate MadeForAll(ps: seq<Processing>, nodes: seq<Node>) {
    |ps| == |nodes| && forall i :: 0 <= i < |nodes| ==> MadeFor(ps[i], nodes[i])
  }

  lemma MadeForAllConcat(ps: seq<Processing>, a: seq<Node>, qs: seq<Processing>, b: seq<Node>)
    requires MadeForAll(ps, a) && MadeForAll(qs, b)
    ensures MadeForAll(ps + qs, a + b)
  {
    forall i | 0 <= i < |a + b| ensures MadeFor((ps + qs)[i], (a + b)[i]) {
      if i >= |a| {
        assert (ps + qs)[i] == qs[i - |a|] && (a + b)[i] == b[i - |a|];
      }
    }
  }

  lemma NodesMadeConcat(c: Ctx, a: seq<Node>, c1: Ctx, b: seq<Node>, c2: Ctx)
    requires NodesMade(c, a, c1) && NodesMade(c1, b, c2)
    ensures NodesMade(c, a + b, c2)
  {
    var n := |c.laf.processing|;
    var n1 := |c1.laf.processing|;
    var ps, qs := c1.laf.processing[n..], c2.laf.processing[n1..];
    assert c2.laf.processing[..n1] == c1.laf.processing;
    assert c2.laf.processing[..n] == c1.laf.processing[..n];
    assert c2.laf.processing[n..] == c2.laf.processing[..n1][n..] + qs;
    MadeForAllConcat(ps, a, qs, b);
  }

  lemma NodesMadeCons(c: Ctx, nodes: seq<Node>, c1: Ctx, c2: Ctx)
    requires nodes != [] && NodesMade(c, [nodes[0]], c1) && NodesMade(c1, nodes[1..], c2)
    ensures NodesMade(c, nodes, c2)
  {
    assert [nodes[0]] + nodes[1..] == nodes;
    NodesMadeConcat(c, [nodes[0]], c1, nodes[1..], c2);
  }

  /** From the empty facts, the node pass's activities are exactly one per node. */
  lemma MadeFromScratch(nodes: seq<Node>, c: Ctx)
    requires NodesMade(EmptyCtx, nodes, c)
    ensures MadeForAll(c.laf.processing, nodes)
  {
    assert c.laf.processing[0..] == c.laf.processing;
  }

  /** Appending a processing activity whose references are well typed keeps the invariants. */
  lemma AppendProcessingKeepsValid(c: Ctx, p: Processing)
    requires Valid(c) && ProcessingOk(c.laf, p)
    ensures var c' := c.(laf := c.laf.(processing := c.laf.processing + [p]));
            Valid(c') && Extends(c.laf, c'.laf)
  {
    var f' := c.laf.(processing := c.laf.processing + [p]);
    assert Extends(c.laf, f');
    forall i | 0 <= i < |f'.processing| ensures ProcessingOk(f', f'.processing[i]) {
      if i < |c.laf.processing| {
        ProcessingOkGrows(c.laf, f', c.laf.processing[i]);
      } else {
        ProcessingOkGrows(c.laf, f', p);
      }
    }
  }

  /** One node: its processing variant is chosen, its element labels attach
      entities to it, its link labels relate entities, and it gets the node's
      name and id before it is appended to the facts. */
  function TransformNode(c: Ctx, node: Node): (r: Result<Ctx>)
    requires Valid(c)
    ensures r.Ok? ==> NodesStep(c, [node], r.value)
    ensures r.Ok? ==> |r.value.laf.processing| == |c.laf.processing| + 1
    ensures r.Ok? ==> c.resolved <= r.value.resolved
    ensures ProcessingKindOf(node).Err? ==> r == Err(UnknownProcessingType)
  {
    var kind :- ProcessingKindOf(node);
    var x :- ResolveElements(c, NewProcessing(kind), node.properties);
    var c2 :- ResolveLinks(x.0, node.properties);
    var p := x.1.(entityName := node.name, id := node.id);
    ProcessingOkGrows(x.0.laf, c2.laf, x.1);
    AppendMade(c, node, c2, p);
    Ok(c2.(laf := c2.laf.(processing := c2.laf.processing + [p])))
  }

  /** Appending the activity made for `node` is one step of the node pass. */
  lemma AppendMade(c: Ctx, node: Node, c2: Ctx, p: Processing)
    requires Valid(c2) && ProcessingOk(c2.laf, p) && c2.laf.processing == c.laf.processing
    requires MadeFor(p, node)
    ensures NodesStep(c, [node], c2.(laf := c2.laf.(processing := c2.laf.processing + [p])))
    ensures |c2.laf.processing + [p]| == |c.laf.processing| + 1
  {
    AppendProcessingKeepsValid(c2, p);
    var c3 := c2.(laf := c2.laf.(processing := c2.laf.processing + [p]));
    assert c3.laf.processing[..|c.laf.processing|] == c.laf.processing;
    assert c3.laf.processing[|c.laf.processing|..] == [p];
  }

  /** The steps of `TransformNode` one after the other, with what each step
      needs of the previous ones. */
  lemma TransformNodeSteps(c: Ctx, node: Node)
    requires Valid(c)
    ensures ProcessingKindOf(node).Err? ==> TransformNode(c, node) == Err(ProcessingKindOf(node).error)
    ensures ProcessingKindOf(node).Ok? ==>
              var p0 := NewProcessing(ProcessingKindOf(node).value);
              && ProcessingOk(c.laf, p0)
              && (ResolveElements(c, p0, node.properties).Err? ==>
                    TransformNode(c, node) == Err(ResolveElements(c, p0, node.properties).error))
              && (ResolveElements(c, p0, node.properties).Ok? ==>
                    var x := ResolveElements(c, p0, node.properties).value;
                    && Valid(x.0)
                    && TransformNode(c, node) ==
                         match ResolveLinks(x.0, node.properties)
                         case Err(e) => Err(e)
                         case Ok(c2) =>
                           Ok(c2.(laf := c2.laf.(processing := c2.laf.processing + [x.1.(entityName := node.name, id := node.id)]))))
  {
  }

  /** Every node in diagram order. */
  function TransformNodes(c: Ctx, nodes: seq<Node>): (r: Result<Ctx>)
    requires Valid(c)
    ensures r.Ok? ==> Valid(r.value) && |r.value.laf.processing| == |c.laf.processing| + |nodes|
    decreases |nodes|
  {
    if nodes == [] then Ok(c)
    else
      match TransformNode(c, nodes[0])
      case Err(e) => Err(e)
      case Ok(c1) => TransformNodes(c1, nodes[1..])
  }

  /** The node pass appends one activity per node, in node order, each made
      for its node. */
  lemma {:induction false} TransformNodesMade(c: Ctx, nodes: seq<Node>)
    requires Valid(c) && TransformNodes(c, nodes).Ok?
    ensures NodesMade(c, nodes, TransformNodes(c, nodes).value)
    decreases |nodes|
  {
    if nodes == [] {
      assert c.laf.processing[..|c.laf.processing|] == c.laf.processing;
      assert c.laf.processing[|c.laf.processing|..] == [];
    } else {
      TransformNodesStep(c, nodes);
      var c1 := TransformNode(c, nodes[0]).value;
      TransformNodesMade(c1, nodes[1..]);
      NodesMadeCons(c, nodes, c1, TransformNodes(c, nodes).value);
    }
  }

  /** The node pass from position `i` on: node `i`, then the rest. */
  lemma TransformNodesFrom(c: Ctx, nodes: seq<Node>, i: nat)
    requires Valid(c) && i < |nodes|
    ensures match TransformNode(c, nodes[i])
            case Err(e) => TransformNodes(c, nodes[i..]) == Err(e)
            case Ok(c1) => && Valid(c1) && |c1.laf.processing| == |c.laf.processing| + 1
                           && TransformNodes(c, nodes[i..]) == TransformNodes(c1, nodes[i + 1..])
  {
    assert nodes[i..][0] == nodes[i] && nodes[i..][1..] == nodes[i + 1..];
    TransformNodesStep(c, nodes[i..]);
  }

  /** The node pass over no nodes changes nothing. */
  lemma TransformNodesDone(c: Ctx, nodes: seq<Node>)
    requires Valid(c)
    ensures TransformNodes(c, nodes[|nodes|..]) == Ok(c)
  {
    assert nodes[|nodes|..] == [];
  }

  /** One step of the node pass, as the engine's loop takes it. */
  lemma TransformNodesStep(c: Ctx, nodes: seq<Node>)
    requires Valid(c) && nodes != []
    ensures match TransformNode(c, nodes[0])
            case Err(e) => TransformNodes(c, nodes) == Err(e)
            case Ok(c1) => Valid(c1) && TransformNodes(c, nodes) == TransformNodes(c1, nodes[1..])
  {
  }

  /** A node's pass resolves each of the node's own link labels. */
  lemma TransformNodeSettles(c: Ctx, node: Node)
    requires Valid(c) && TransformNode(c, node).Ok?
    ensures forall l :: l in node.properties && IsLink(l) ==> l.key in TransformNode(c, node).value.resolved
  {
    TransformNodeSteps(c, node);
    var x := ResolveElements(c, NewProcessing(ProcessingKindOf(node).value), node.properties).value;
    ResolveLinksCovers(x.0, node.properties);
  }

  /** After the node pass, the labels resolved before are still resolved, and
      so is every link label of every node passed. */
  lemma {:induction false} TransformNodesSettle(c: Ctx, nodes: seq<Node>)
    requires Valid(c) && TransformNodes(c, nodes).Ok?
    ensures c.resolved <= TransformNodes(c, nodes).value.resolved
    ensures forall i, l :: 0 <= i < |nodes| && l in nodes[i].properties && IsLink(l) ==>
              l.key in TransformNodes(c, nodes).value.resolved
    decreases |nodes|
  {
    if nodes != [] {
      TransformNodesStep(c, nodes);
      var c1 := TransformNode(c, nodes[0]).value;
      TransformNodeSettles(c, nodes[0]);
      TransformNodesSettle(c1, nodes[1..]);
      forall i, l | 0 <= i < |nodes| && l in nodes[i].properties && IsLink(l)
        ensures l.key in TransformNodes(c, nodes).value.resolved
      {
        if i > 0 {
          assert nodes[i] == nodes[1..][i - 1];
        }
      }
    }
  }

  /** The node pass over `a + b`, once the pass over `a` succeeds, goes on
      from where the pass over `a` stopped. */
  lemma {:induction false} TransformNodesConcat(c: Ctx, a: seq<Node>, b: seq<Node>)
    requires Valid(c) && TransformNodes(c, a).Ok?
    ensures TransformNodes(c, a + b) == TransformNodes(TransformNodes(c, a).value, b)
    decreases |a|
  {
    if a == [] {
      assert a + b == b;
    } else {
      HeadOfConcat(a, b);
      TransformNodesStep(c, a);
      TransformNodesStep(c, a + b);
      var c1 := TransformNode(c, a[0]).value;
      TransformNodesConcat(c1, a[1..], b);
    }
  }

  lemma HeadOfConcat(a: seq<Node>, b: seq<Node>)
    requires a != []
    ensures a + b != [] && (a + b)[0] == a[0] && (a + b)[1..] == a[1..] + b
  {
    assert (a + b)[1..] == a[1..] + b;
  }

  /** A link label that several nodes share is applied at most once: once the
      pass has gone over a node holding it, it stays resolved, and when the
      pass reaches any later node the link resolver leaves the state as it is
      for that label. */
  lemma SharedLinkAppliedOnce(c: Ctx, nodes: seq<Node>, i: nat, j: nat, l: Label)
    requires Valid(c) && i < j <= |nodes|
    requires l in nodes[i].properties && IsLink(l)
    requires TransformNodes(c, nodes[..j]).Ok?
    ensures var s := TransformNodes(c, nodes[..j]).value;
            && l.key in s.resolved
            && ApplyLink(s, l) == Ok(s)
            && TransformNodes(c, nodes) == TransformNodes(s, nodes[j..])
  {
    SplitAt(nodes, i, j);
    TransformNodesSettle(c, nodes[..j]);
    TransformNodesConcat(c, nodes[..j], nodes[j..]);
  }

  lemma SplitAt(nodes: seq<Node>, i: nat, j: nat)
    requires i < j <= |nodes|
    ensures nodes[..j][i] == nodes[i] && nodes[..j] + nodes[j..] == nodes
  {
  }

  // ---------------------------------------------------------------------
  // Flows
  // ---------------------------------------------------------------------

  /** Every value of the node map is a position in the processing list. */
  predicate MapInto(m: map<nat, nat>, n: nat) {
    forall k :: k in m ==> m[k] < n
  }

  /** Both endpoints of every flow are mapped nodes. */
  predicate Wired(flows: seq<Flow>, m: map<nat, nat>) {
    forall k :: 0 <= k < |flows| ==> flows[k].source in m && flows[k].destination in m
  }

  /** The processing activities that the flows make follow activity `j`, in flow order. */
  function Successors(flows: seq<Flow>, m: map<nat, nat>, j: nat): seq<nat>
    requires Wired(flows, m)
    decreases |flows|
  {
    if flows == [] then []
    else (if m[flows[0].source] == j then [m[flows[0].destination]] else []) + Successors(flows[1..], m, j)
  }

  /** One flow: the destination's activity is appended to the source's
      successors. An endpoint outside the node map is fatal. */
  function WireFlow(procs: seq<Processing>, m: map<nat, nat>, fl: Flow): (r: Result<seq<Processing>>)
    requires MapInto(m, |procs|)
    ensures r.Ok? <==> fl.source in m && fl.destination in m
    ensures r.Err? ==> r.error == DanglingFlow
  {
    if fl.source !in m || fl.destination !in m then Err(DanglingFlow)
    else
      var s := m[fl.source];
      Ok(procs[s := procs[s].(following := procs[s].following + [m[fl.destination]])])
  }

  /** Every flow in diagram order; each activity ends up followed by the
      activities its outgoing flows lead to, duplicates included. */
  function WireFlows(procs: seq<Processing>, m: map<nat, nat>, flows: seq<Flow>): (r: Result<seq<Processing>>)
    requires MapInto(m, |procs|)
    ensures r.Ok? <==> Wired(flows, m)
    ensures r.Err? ==> r.error == DanglingFlow
    ensures r.Ok? ==> && |r.value| == |procs|
                      && forall j :: 0 <= j < |procs| ==>
                           r.value[j] == procs[j].(following := procs[j].following + Successors(flows, m, j))
    decreases |flows|
  {
    if flows == [] then Ok(procs)
    else
      WiredCons(flows, m);
      var procs1 :- WireFlow(procs, m, flows[0]);
      var r := WireFlows(procs1, m, flows[1..]);
      if r.Ok? then
        WireFlowsCons(procs, m, flows, procs1, r.value);
        r
      else r
  }

  lemma WiredCons(flows: seq<Flow>, m: map<nat, nat>)
    requires flows != []
    ensures Wired(flows, m) <==> flows[0].source in m && flows[0].destination in m && Wired(flows[1..], m)
  {
    if flows[0].source in m && flows[0].destination in m && Wired(flows[1..], m) {
      forall k | 0 <= k < |flows| ensures flows[k].source in m && flows[k].destination in m {
        if k > 0 { assert flows[k] == flows[1..][k - 1]; }
      }
    }
  }

  lemma WireFlowsCons(procs: seq<Processing>, m: map<nat, nat>, flows: seq<Flow>,
                      procs1: seq<Processing>, procs2: seq<Processing>)
    requires MapInto(m, |procs|) && flows != [] && Wired(flows, m)
    requires WireFlow(procs, m, flows[0]) == Ok(procs1)
    requires |procs2| == |procs1|
    requires Wired(flows[1..], m)
    requires forall j :: 0 <= j < |procs1| ==>
               procs2[j] == procs1[j].(following := procs1[j].following + Successors(flows[1..], m, j))
    ensures |procs2| == |procs|
    ensures forall j :: 0 <= j < |procs| ==>
              procs2[j] == procs[j].(following := procs[j].following + Successors(flows, m, j))
  {
    forall j | 0 <= j < |procs|
      ensures procs2[j] == procs[j].(following := procs[j].following + Successors(flows, m, j))
    {
      var head := if m[flows[0].source] == j then [m[flows[0].destination]] else [];
      assert procs1[j] == procs[j].(following := procs[j].following + head);
      assert procs[j].following + head + Successors(flows[1..], m, j)
          == procs[j].following + (head + Successors(flows[1..], m, j));
    }
  }

  /** The nodes a flow list leads to from node `n`, in flow order. */
  function Targets(flows: seq<Flow>, n: nat): seq<nat>
    decreases |flows|
  {
    if flows == [] then []
    else (if flows[0].source == n then [flows[0].destination] else []) + Targets(flows[1..], n)
  }

  /** The node map of a run: node `i` is turned into processing activity `i`. */
  function NodeMap(n: nat): map<nat, nat>
  {
    if n == 0 then map[] else NodeMap(n - 1)[n - 1 := n - 1]
  }

  /** The node map of `n` nodes maps exactly the first `n` nodes, each to itself. */
  lemma {:induction false} NodeMapIdentity(n: nat)
    ensures forall i: nat :: i in NodeMap(n) <==> i < n
    ensures forall i :: i in NodeMap(n) ==> NodeMap(n)[i] == i
  {
    if n > 0 {
      NodeMapIdentity(n - 1);
    }
  }

  /** Through the node map of a run, an activity's successors are its node's flow targets. */
  lemma {:induction false} SuccessorsAreTargets(flows: seq<Flow>, n: nat, j: nat)
    requires Wired(flows, NodeMap(n))
    ensures Successors(flows, NodeMap(n), j) == Targets(flows, j)
    decreases |flows|
  {
    NodeMapIdentity(n);
    if flows != [] {
      assert Wired(flows[1..], NodeMap(n)) by {
        forall k | 0 <= k < |flows[1..]| ensures flows[1..][k].source in NodeMap(n) && flows[1..][k].destination in NodeMap(n) {
          assert flows[1..][k] == flows[k + 1];
        }
      }
      SuccessorsAreTargets(flows[1..], n, j);
    }
  }

  /** Every flow endpoint is a node of the diagram. */
  predicate Closed(dfd: DataFlowDiagram) {
    forall k :: 0 <= k < |dfd.flows| ==>
      dfd.flows[k].source < |dfd.nodes| && dfd.flows[k].destination < |dfd.nodes|
  }

  // ---------------------------------------------------------------------
  // The trace model
  // ---------------------------------------------------------------------

  /** The trace of flow `k`: the flow and the ids of its two end nodes. */
  function FlowElementOf(dfd: DataFlowDiagram, k: nat): FlowElement
    requires Closed(dfd) && k < |dfd.flows|
  {
    FlowElement(k, dfd.nodes[dfd.flows[k].source].id, dfd.nodes[dfd.flows[k].destination].id)
  }

  function FlowElements(dfd: DataFlowDiagram): (r: seq<FlowElement>)
    requires Closed(dfd)
    ensures |r| == |dfd.flows|
    ensures forall k :: 0 <= k < |r| ==> r[k].flow == k
  {
    seq(|dfd.flows|, k requires 0 <= k < |dfd.flows| => FlowElementOf(dfd, k))
  }

  /** One trace per entry of the node map. */
  function TraceSet(m: map<nat, nat>): (r: set<Trace>)
    ensures forall t :: t in r <==> t.node in m && m[t.node] == t.processing
  {
    set n | n in m :: Trace(n, m[n])
  }

  /** There are exactly as many traces as node-map entries: no two entries
      give the same trace. */
  lemma {:induction false} TraceSetSize(m: map<nat, nat>)
    ensures |TraceSet(m)| == |m|
    decreases |m|
  {
    if m != map[] {
      var k :| k in m;
      var m' := m - {k};
      assert m'.Keys == m.Keys - {k};
      TraceSetSize(m');
      assert TraceSet(m) == TraceSet(m') + {Trace(k, m[k])};
      assert Trace(k, m[k]) !in TraceSet(m');
    }
  }

  // ---------------------------------------------------------------------
  // The data dictionary
  // ---------------------------------------------------------------------

  /** The label types the transformation consumes. */
  predicate IsGdprLabelType(lt: LabelType) {
    lt.name == "GDPRElement" || lt.name == "GDPRNode" || lt.name == "GDPRLink"
  }

  /** The dictionary without its GDPR label types. */
  function Pruned(lts: seq<LabelType>): (r: seq<LabelType>)
    ensures forall lt :: lt in r <==> lt in lts && !IsGdprLabelType(lt)
    ensures |r| <= |lts|
    decreases |lts|
  {
    if lts == [] then []
    else (if IsGdprLabelType(lts[0]) then [] else [lts[0]]) + Pruned(lts[1..])
  }

  /** Pruning one more label type keeps it exactly when it is not a GDPR one. */
  lemma PrunedSnoc(lts: seq<LabelType>, lt: LabelType)
    ensures Pruned(lts + [lt]) == Pruned(lts) + (if IsGdprLabelType(lt) then [] else [lt])
  {
    PrunedConcat(lts, [lt]);
    assert Pruned([lt]) == (if IsGdprLabelType(lt) then [] else [lt]) + Pruned([]);
  }

  /** Pruning keeps the relative order: it works part by part. */
  lemma {:induction false} PrunedConcat(a: seq<LabelType>, b: seq<LabelType>)
    ensures Pruned(a + b) == Pruned(a) + Pruned(b)
    decreases |a|
  {
    if a == [] {
      assert a + b == b;
    } else {
      assert (a + b)[0] == a[0] && (a + b)[1..] == a[1..] + b;
      PrunedConcat(a[1..], b);
    }
  }

  /** A dictionary without GDPR label types is left exactly as it is. */
  lemma {:induction false} PrunedKeepsOthers(lts: seq<LabelType>)
    requires forall lt :: lt in lts ==> !IsGdprLabelType(lt)
    ensures Pruned(lts) == lts
    decreases |lts|
  {
    if lts != [] {
      PrunedKeepsOthers(lts[1..]);
    }
  }

  // ---------------------------------------------------------------------
  // The whole run
  // ---------------------------------------------------------------------

  /** Everything a run produces: the facts, the two lists of the trace
      model (traces as a set: their order is a hash map's), and the pruned
      dictionary. */
  datatype Output = Output(laf: Facts, flowList: seq<FlowElement>, traces: set<Trace>, labelTypes: seq<LabelType>)

  function Transform(dfd: DataFlowDiagram, labelTypes: seq<LabelType>): (r: Result<Output>)
    ensures TransformNodes(EmptyCtx, dfd.nodes).Ok? && !Closed(dfd) ==> r == Err(DanglingFlow)
    ensures r.Ok? ==> Closed(dfd) && r.value.labelTypes == Pruned(labelTypes)
  {
    var c :- TransformNodes(EmptyCtx, dfd.nodes);
    var m := NodeMap(|dfd.nodes|);
    NodeMapIdentity(|dfd.nodes|);
    var procs :- WireFlows(c.laf.processing, m, dfd.flows);
    Ok(Output(c.laf.(processing := procs), FlowElements(dfd), TraceSet(m), Pruned(labelTypes)))
  }

  /** A run fails with the node pass's error, or with a dangling flow, or
      produces the facts with the flows wired. */
  lemma TransformCases(dfd: DataFlowDiagram, labelTypes: seq<LabelType>)
    ensures TransformNodes(EmptyCtx, dfd.nodes).Err? ==>
              Transform(dfd, labelTypes) == Err(TransformNodes(EmptyCtx, dfd.nodes).error)
    ensures TransformNodes(EmptyCtx, dfd.nodes).Ok? ==>
              var c := TransformNodes(EmptyCtx, dfd.nodes).value;
              && MapInto(NodeMap(|dfd.nodes|), |c.laf.processing|)
              && (WireFlows(c.laf.processing, NodeMap(|dfd.nodes|), dfd.flows).Err? ==>
                    Transform(dfd, labelTypes) == Err(DanglingFlow))
              && (WireFlows(c.laf.processing, NodeMap(|dfd.nodes|), dfd.flows).Ok? ==>
                    Closed(dfd) &&
                    Transform(dfd, labelTypes) ==
                      Ok(Output(c.laf.(processing := WireFlows(c.laf.processing, NodeMap(|dfd.nodes|), dfd.flows).value),
                                FlowElements(dfd), TraceSet(NodeMap(|dfd.nodes|)), Pruned(labelTypes))))
  {
    NodeMapIdentity(|dfd.nodes|);
  }

  /** A successful run is the node pass, then the flow pass, then the trace
      model and the pruned dictionary. */
  lemma TransformUnfold(dfd: DataFlowDiagram, labelTypes: seq<LabelType>)
    requires Transform(dfd, labelTypes).Ok?
    ensures TransformNodes(EmptyCtx, dfd.nodes).Ok?
    ensures var c := TransformNodes(EmptyCtx, dfd.nodes).value;
            && MapInto(NodeMap(|dfd.nodes|), |c.laf.processing|)
            && WireFlows(c.laf.processing, NodeMap(|dfd.nodes|), dfd.flows).Ok?
            && Closed(dfd)
            && Transform(dfd, labelTypes).value ==
                 Output(c.laf.(processing := WireFlows(c.laf.processing, NodeMap(|dfd.nodes|), dfd.flows).value),
                        FlowElements(dfd), TraceSet(NodeMap(|dfd.nodes|)), Pruned(labelTypes))
  {
    NodeMapIdentity(|dfd.nodes|);
  }

  /** Every node yields exactly one processing activity, at the node's own
      position, with the node's id and name and the variant its labels or its
      kind select. */
  lemma OneProcessingPerNode(dfd: DataFlowDiagram, labelTypes: seq<LabelType>)
    requires Transform(dfd, labelTypes).Ok?
    ensures var f := Transform(dfd, labelTypes).value.laf;
            && |f.processing| == |dfd.nodes|
            && forall i :: 0 <= i < |dfd.nodes| ==>
                 && f.processing[i].id == dfd.nodes[i].id
                 && f.processing[i].entityName == dfd.nodes[i].name
                 && ProcessingKindOf(dfd.nodes[i]) == Ok(f.processing[i].kind)
  {
    TransformUnfold(dfd, labelTypes);
    var c := TransformNodes(EmptyCtx, dfd.nodes).value;
    var procs := WireFlows(c.laf.processing, NodeMap(|dfd.nodes|), dfd.flows).value;
    TransformNodesMade(EmptyCtx, dfd.nodes);
    NodesKeepIdentity(dfd, c, procs);
  }

  lemma NodesKeepIdentity(dfd: DataFlowDiagram, c: Ctx, procs: seq<Processing>)
    requires NodesMade(EmptyCtx, dfd.nodes, c)
    requires MapInto(NodeMap(|dfd.nodes|), |c.laf.processing|)
    requires WireFlows(c.laf.processing, NodeMap(|dfd.nodes|), dfd.flows) == Ok(procs)
    ensures |procs| == |dfd.nodes|
    ensures forall i :: 0 <= i < |dfd.nodes| ==>
              && procs[i].id == dfd.nodes[i].id && procs[i].entityName == dfd.nodes[i].name
              && ProcessingKindOf(dfd.nodes[i]) == Ok(procs[i].kind)
  {
    MadeFromScratch(dfd.nodes, c);
    forall i | 0 <= i < |dfd.nodes| ensures MadeFor(c.laf.processing[i], dfd.nodes[i]) {
    }
  }

  /** The topology survives: the successors of a node's activity are the
      activities of the nodes its flows lead to, in flow order. */
  lemma FollowingMatchesFlows(dfd: DataFlowDiagram, labelTypes: seq<LabelType>)
    requires Transform(dfd, labelTypes).Ok?
    ensures var f := Transform(dfd, labelTypes).value.laf;
            forall i :: 0 <= i < |f.processing| ==> f.processing[i].following == Targets(dfd.flows, i)
  {
    TransformUnfold(dfd, labelTypes);
    var c := TransformNodes(EmptyCtx, dfd.nodes).value;
    var procs := WireFlows(c.laf.processing, NodeMap(|dfd.nodes|), dfd.flows).value;
    TransformNodesMade(EmptyCtx, dfd.nodes);
    NodesUnwired(dfd.nodes, c);
    FlowsMakeFollowing(dfd, c.laf.processing, procs);
  }

  /** Before the flow pass no activity has successors. */
  lemma NodesUnwired(nodes: seq<Node>, c: Ctx)
    requires NodesMade(EmptyCtx, nodes, c)
    ensures |c.laf.processing| == |nodes|
    ensures forall i :: 0 <= i < |c.laf.processing| ==> c.laf.processing[i].following == []
  {
    MadeFromScratch(nodes, c);
    forall i | 0 <= i < |c.laf.processing| ensures c.laf.processing[i].following == [] {
      assert MadeFor(c.laf.processing[i], nodes[i]);
    }
  }

  lemma FlowsMakeFollowing(dfd: DataFlowDiagram, procs0: seq<Processing>, procs: seq<Processing>)
    requires |procs0| == |dfd.nodes| && MapInto(NodeMap(|dfd.nodes|), |procs0|)
    requires forall i :: 0 <= i < |procs0| ==> procs0[i].following == []
    requires WireFlows(procs0, NodeMap(|dfd.nodes|), dfd.flows) == Ok(procs)
    ensures forall i :: 0 <= i < |procs| ==> procs[i].following == Targets(dfd.flows, i)
  {
    var m := NodeMap(|dfd.nodes|);
    assert Wired(dfd.flows, m);
    forall i | 0 <= i < |procs| ensures procs[i].following == Targets(dfd.flows, i) {
      assert procs[i] == procs0[i].(following := [] + Successors(dfd.flows, m, i));
      SuccessorsAreTargets(dfd.flows, |dfd.nodes|, i);
    }
  }


  /** Every flow yields one flow element, carrying the ids of its source and
      destination nodes, which are the ids of the activities it connects. */
  lemma FlowElementPerFlow(dfd: DataFlowDiagram, labelTypes: seq<LabelType>)
    requires Transform(dfd, labelTypes).Ok?
    ensures var out := Transform(dfd, labelTypes).value;
            && |out.flowList| == |dfd.flows|
            && forall k :: 0 <= k < |dfd.flows| ==>
                 && out.flowList[k].flow == k
                 && dfd.flows[k].source < |out.laf.processing|
                 && dfd.flows[k].destination < |out.laf.processing|
                 && out.flowList[k].sourceId == out.laf.processing[dfd.flows[k].source].id
                 && out.flowList[k].destinationId == out.laf.processing[dfd.flows[k].destination].id
  {
    TransformUnfold(dfd, labelTypes);
    OneProcessingPerNode(dfd, labelTypes);
    var out := Transform(dfd, labelTypes).value;
    FlowElementsCarryIds(dfd, out.laf.processing);
  }

  lemma FlowElementsCarryIds(dfd: DataFlowDiagram, procs: seq<Processing>)
    requires Closed(dfd) && |procs| == |dfd.nodes|
    requires forall i :: 0 <= i < |dfd.nodes| ==> procs[i].id == dfd.nodes[i].id
    ensures forall k :: 0 <= k < |dfd.flows| ==>
              && dfd.flows[k].source < |procs| && dfd.flows[k].destination < |procs|
              && FlowElements(dfd)[k].sourceId == procs[dfd.flows[k].source].id
              && FlowElements(dfd)[k].destinationId == procs[dfd.flows[k].destination].id
  {
    forall k | 0 <= k < |dfd.flows|
      ensures FlowElements(dfd)[k] == FlowElementOf(dfd, k)
    {
    }
  }

  /** Every node has exactly one trace, to the activity made for it. */
  lemma OneTracePerNode(dfd: DataFlowDiagram, labelTypes: seq<LabelType>)
    requires Transform(dfd, labelTypes).Ok?
    ensures var out := Transform(dfd, labelTypes).value;
            && (forall i :: 0 <= i < |dfd.nodes| ==> Trace(i, i) in out.traces)
            && (forall t :: t in out.traces ==> t.node < |dfd.nodes| && t.processing == t.node)
            && (forall t :: t in out.traces ==> out.laf.processing[t.processing].id == dfd.nodes[t.node].id)
  {
    TransformUnfold(dfd, labelTypes);
    OneProcessingPerNode(dfd, labelTypes);
    TracesOfNodeMap(|dfd.nodes|);
  }

  lemma TracesOfNodeMap(n: nat)
    ensures forall i :: 0 <= i < n ==> Trace(i, i) in TraceSet(NodeMap(n))
    ensures forall t :: t in TraceSet(NodeMap(n)) ==> t.node < n && t.processing == t.node
  {
    var m := NodeMap(n);
    NodeMapIdentity(n);
    forall i | 0 <= i < n ensures Trace(i, i) in TraceSet(m) {
      assert i in m;
    }
  }

  /** The facts of a run are well typed, successors included, and no two of
      their entities share an id. */
  lemma OutputWellFormed(dfd: DataFlowDiagram, labelTypes: seq<LabelType>, a: EntityRef, b: EntityRef)
    requires Transform(dfd, labelTypes).Ok?
    ensures FactsOk(Transform(dfd, labelTypes).value.laf)
    ensures var f := Transform(dfd, labelTypes).value.laf;
            RefOk(f, a) && RefOk(f, b) && IdOf(f, a) == IdOf(f, b) ==> a == b
  {
    TransformUnfold(dfd, labelTypes);
    var c := TransformNodes(EmptyCtx, dfd.nodes).value;
    var procs := WireFlows(c.laf.processing, NodeMap(|dfd.nodes|), dfd.flows).value;
    WiredFactsOk(dfd, c, procs);
    if RefOk(c.laf, a) && RefOk(c.laf, b) && IdOf(c.laf, a) == IdOf(c.laf, b) {
      RegisteredIdsUnique(c, a, b);
    }
  }

  lemma WiredFactsOk(dfd: DataFlowDiagram, c: Ctx, procs: seq<Processing>)
    requires Valid(c)
    requires MapInto(NodeMap(|dfd.nodes|), |c.laf.processing|)
    requires WireFlows(c.laf.processing, NodeMap(|dfd.nodes|), dfd.flows) == Ok(procs)
    ensures FactsOk(c.laf.(processing := procs))
  {
    var m := NodeMap(|dfd.nodes|);
    var f := c.laf.(processing := procs);
    assert Extends(c.laf, f);
    forall i | 0 <= i < |procs| ensures ProcessingOk(f, procs[i]) {
      ProcessingOkGrows(c.laf, f, c.laf.processing[i]);
      forall j | j in procs[i].following ensures j < |procs| {
        if j !in c.laf.processing[i].following {
          SuccessorsBounded(dfd.flows, m, i, |procs|, j);
        }
      }
    }
    forall i | 0 <= i < |f.legalBases| ensures LegalBasisOk(f, f.legalBases[i]) {
      LegalBasisOkGrows(c.laf, f, f.legalBases[i]);
    }
    forall i | 0 <= i < |f.data| ensures DataOk(f, f.data[i]) {
      DataOkGrows(c.laf, f, f.data[i]);
    }
  }

  lemma {:induction false} SuccessorsBounded(flows: seq<Flow>, m: map<nat, nat>, i: nat, n: nat, j: nat)
    requires Wired(flows, m) && MapInto(m, n) && j in Successors(flows, m, i)
    ensures j < n
    decreases |flows|
  {
    if flows != [] {
      assert Wired(flows[1..], m) by {
        forall k | 0 <= k < |flows[1..]| ensures flows[1..][k].source in m && flows[1..][k].destination in m {
          assert flows[1..][k] == flows[k + 1];
        }
      }
      if j !in (if m[flows[0].source] == i then [m[flows[0].destination]] else []) {
        SuccessorsBounded(flows[1..], m, i, n, j);
      }
    }
  }

  /** A label type survives the run exactly when it is not a GDPR one, and
      the survivors keep their order. */
  lemma DictionaryPruned(dfd: DataFlowDiagram, labelTypes: seq<LabelType>, a: seq<LabelType>, b: seq<LabelType>)
    requires Transform(dfd, labelTypes).Ok? && labelTypes == a + b
    ensures var out := Transform(dfd, labelTypes).value;
            && (forall lt :: lt in out.labelTypes <==> lt in labelTypes && !IsGdprLabelType(lt))
            && out.labelTypes == Pruned(a) + Pruned(b)
  {
    PrunedConcat(a, b);
  }
}
