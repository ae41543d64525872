/** The transformation engine as an object: it holds the diagram, the data
    dictionary, the facts and the trace model it fills, and the three tables
    it keeps while it runs (node to processing activity, id to entity, link
    labels already applied). Every method is proved to do what the
    corresponding function of the specification says. */
module Engine {
  import opened JavaStrings
  import opened Model
  import opened Labels
  import opened Registry
  import opened Resolvers
  import opened Transformation

  /** The legal-assessment facts the engine appends to. */
  class LegalAssessmentFacts {
    var processing: seq<Processing>
    var legalBases: seq<LegalBasis>
    var data: seq<Data>
    var purposes: seq<Purpose>
    var involvedParties: seq<Role>

    function Value(): Facts
      reads this
    {
      Facts(processing, legalBases, data, purposes, involvedParties)
    }

    constructor ()
      ensures Value() == EmptyFacts
    {
      processing, legalBases, data, purposes, involvedParties := [], [], [], [], [];
    }
  }

  /** The trace model: one flow element per flow, one trace per node. */
  class TraceModel {
    var flowList: seq<FlowElement>
    var tracesList: seq<Trace>

    constructor ()
      ensures flowList == [] && tracesList == []
    {
      flowList, tracesList := [], [];
    }
  }

  /** The data dictionary: the label types of the diagram. */
  class DataDictionary {
    var labelTypes: seq<LabelType>

    constructor (labelTypes: seq<LabelType>)
      ensures this.labelTypes == labelTypes
    {
      this.labelTypes := labelTypes;
    }
  }

  class Dfd2Gdpr {
    const dfd: DataFlowDiagram
    const dd: DataDictionary
    const laf: LegalAssessmentFacts
    const tracemodel: TraceModel
    var mapNodeToProcessing: map<nat, nat>
    var mapIdToElement: map<string, EntityRef>
    var resolvedLinkageLabel: set<LabelKey>

    /** The engine's state as the label resolvers see it. */
    function State(): Ctx
      reads this, laf
    {
      Ctx(laf.Value(), mapIdToElement, resolvedLinkageLabel)
    }

    /** Nothing produced yet. */
    predicate Fresh()
      reads this, laf, tracemodel
    {
      && State() == EmptyCtx && mapNodeToProcessing == map[]
      && tracemodel.flowList == [] && tracemodel.tracesList == []
    }

    /** An engine over a loaded diagram and dictionary, with empty output models. */
    constructor (dfd: DataFlowDiagram, labelTypes: seq<LabelType>)
      ensures this.dfd == dfd && dd.labelTypes == labelTypes && Fresh()
      ensures fresh(dd) && fresh(laf) && fresh(tracemodel)
    {
      this.dfd := dfd;
      dd := new DataDictionary(labelTypes);
      laf := new LegalAssessmentFacts();
      tracemodel := new TraceModel();
      mapNodeToProcessing := map[];
      mapIdToElement := map[];
      resolvedLinkageLabel := {};
    }

    /** The entity a `Type:Name:Id` token names, created and registered on
        first sight of its id. */
    method ResolveAndCreateElementType(token: string) returns (r: Result<EntityRef>)
      modifies this`mapIdToElement, laf
      ensures match ResolveEntity(old(State()), token)
              case Ok(x) => r == Ok(x.1) && State() == x.0
              case Err(e) => r == Err(e) && State() == old(State())
    {
      var t :- ParseToken(token);
      if t.id in mapIdToElement {
        return Ok(mapIdToElement[t.id]);
      }
      var entity: EntityRef;
      if EntityKindNamed(t.typeName).Some? {
        ResolveEntityCreates(State(), token);
      }
      match EntityKindNamed(t.typeName) {
        case None =>
          return Err(UnknownEntityType);
        case Some(LegalBasisEntity(k)) =>
          entity := LegalBasisRef(|laf.legalBases|);
          laf.legalBases := laf.legalBases + [LegalBasis(k, t.name, t.id, None, [], [], None)];
        case Some(DataEntity(k)) =>
          entity := DataRef(|laf.data|);
          laf.data := laf.data + [Data(k, t.name, t.id, [])];
        case Some(PurposeEntity) =>
          entity := PurposeRef(|laf.purposes|);
          laf.purposes := laf.purposes + [Purpose(t.name, t.id)];
        case Some(RoleEntity(k)) =>
          entity := RoleRef(|laf.involvedParties|);
          laf.involvedParties := laf.involvedParties + [Role(k, t.name, t.name, t.id)];
      }
      mapIdToElement := mapIdToElement[t.id := entity];
      return Ok(entity);
    }

    /** One element label (the body of the element loop): the entity its
        token names is attached to the processing activity in the role the
        label gives. */
    method ResolveOneElementLabel(p: Processing, lbl: Label) returns (r: Result<Processing>)
      requires Valid(State()) && ProcessingOk(laf.Value(), p)
      modifies this`mapIdToElement, laf
      ensures match ApplyElement(old(State()), p, lbl)
              case Ok(x) => r == Ok(x.1) && State() == x.0
              case Err(e) => r == Err(e)
    {
      var parts :- ElementParts(lbl.name);
      var entity :- ResolveAndCreateElementType(parts.1);
      match ElementRoleNamed(parts.0) {
        case None =>
          return Err(UnknownElementRole);
        case Some(role) =>
          if !Accepts(role, entity) {
            return Err(InvalidCast);
          }
          match role {
            case InputDataRole => r := Ok(p.(inputData := p.inputData + [entity.i]));
            case OutputDataRole => r := Ok(p.(outputData := p.outputData + [entity.i]));
            case LegalBasisRole => r := Ok(p.(onTheBasisOf := p.onTheBasisOf + [entity.i]));
            case PurposeRole => r := Ok(p.(purpose := p.purpose + [entity.i]));
            case ResponsibleRole => r := Ok(p.(responsible := Some(entity.i)));
          }
      }
    }

    /** Applies the element labels of a node to its processing activity,
        which is not yet part of the facts. */
    method ResolveElementLabel(processing: Processing, properties: seq<Label>) returns (r: Result<Processing>)
      requires Valid(State()) && ProcessingOk(laf.Value(), processing)
      modifies this`mapIdToElement, laf
      ensures match ResolveElements(old(State()), processing, properties)
              case Ok(x) => r == Ok(x.1) && State() == x.0
              case Err(e) => r == Err(e)
    {
      var p := processing;
      var i := 0;
      while i < |properties|
        invariant 0 <= i <= |properties|
        invariant Valid(State()) && ProcessingOk(laf.Value(), p)
        invariant ResolveElements(old(State()), processing, properties) == ResolveElements(State(), p, properties[i..])
      {
        var lbl := properties[i];
        assert properties[i..][0] == lbl && properties[i..][1..] == properties[i + 1..];
        ResolveElementsStep(State(), p, properties[i..]);
        if lbl.typeName == ElementLabelType {
          p :- ResolveOneElementLabel(p, lbl);
        }
        i := i + 1;
      }
      return Ok(p);
    }

    /** Relates entity `a` to entity `b` as the link role says, after the
        casts the role demands. */
    method SetReference(a: EntityRef, role: string, b: EntityRef) returns (r: Result<()>)
      requires RefOk(laf.Value(), a) && RefOk(laf.Value(), b)
      modifies laf
      ensures match Link(old(laf.Value()), a, role, b)
              case Ok(f) => r.Ok? && laf.Value() == f
              case Err(e) => r == Err(e) && laf.Value() == old(laf.Value())
    {
      match LinkRoleNamed(role) {
        case None =>
          return Err(UnknownLinkRole);
        case Some(k) =>
          if !LinkTyped(laf.Value(), k, a, b) {
            return Err(InvalidCast);
          }
          match k {
            case ConsenteeLink =>
              laf.legalBases := laf.legalBases[a.i := laf.legalBases[a.i].(consentee := Some(b.i))];
            case ContractPartyLink =>
              var lb := laf.legalBases[a.i];
              laf.legalBases := laf.legalBases[a.i := lb.(contractingParty := lb.contractingParty + [b.i])];
            case ForPurposeLink =>
              var lb := laf.legalBases[a.i];
              laf.legalBases := laf.legalBases[a.i := lb.(forPurpose := lb.forPurpose + [b.i])];
            case ForDataLink =>
              laf.legalBases := laf.legalBases[a.i := laf.legalBases[a.i].(personalData := Some(b.i))];
            case ReferenceLink =>
              var d := laf.data[a.i];
              laf.data := laf.data[a.i := d.(dataReferences := d.dataReferences + [b.i])];
          }
      }
      return Ok(());
    }

    /** Relates the entities of two tokens by a role, creating either when
        it is not registered yet. */
    method RelateTokens(first: string, role: string, second: string) returns (r: Result<()>)
      requires Valid(State())
      modifies this`mapIdToElement, laf
      ensures match Relate(old(State()), first, role, second)
              case Ok(c) => r.Ok? && State() == c
              case Err(e) => r == Err(e)
    {
      RelateSteps(State(), first, role, second);
      var a :- ResolveAndCreateElementType(first);
      var b :- ResolveAndCreateElementType(second);
      var linked :- SetReference(a, role, b);
      return Ok(());
    }

    /** One link label (the body of the link loop): skipped when applied
        before or not made of three parts, otherwise applied and remembered. */
    method ResolveOneLinkLabel(lbl: Label) returns (r: Result<()>)
      requires Valid(State())
      modifies this`mapIdToElement, this`resolvedLinkageLabel, laf
      ensures match ApplyLink(old(State()), lbl)
              case Ok(c) => r.Ok? && State() == c
              case Err(e) => r == Err(e)
    {
      if lbl.key in resolvedLinkageLabel {
        return Ok(());
      }
      var parts := LinkParts(lbl.name);
      if parts.None? {
        return Ok(());
      }
      var related :- RelateTokens(parts.value.0, parts.value.1, parts.value.2);
      resolvedLinkageLabel := resolvedLinkageLabel + {lbl.key};
      return Ok(());
    }

    /** Applies the link labels of a node, each label object at most once
        over the whole run. */
    method ResolveLinkLabel(properties: seq<Label>) returns (r: Result<()>)
      requires Valid(State())
      modifies this`mapIdToElement, this`resolvedLinkageLabel, laf
      ensures match ResolveLinks(old(State()), properties)
              case Ok(c) => r.Ok? && State() == c
              case Err(e) => r == Err(e)
    {
      var i := 0;
      while i < |properties|
        invariant 0 <= i <= |properties|
        invariant Valid(State())
        invariant ResolveLinks(old(State()), properties) == ResolveLinks(State(), properties[i..])
      {
        var lbl := properties[i];
        assert properties[i..][0] == lbl && properties[i..][1..] == properties[i + 1..];
        ResolveLinksStep(State(), properties[i..]);
        if StartsWith(lbl.name, GdprPrefix) {
          var applied :- ResolveOneLinkLabel(lbl);
        }
        i := i + 1;
      }
      return Ok(());
    }

    /** One node (the body of the node loop of the transformation). */
    method TransformNodeAt(i: nat) returns (r: Result<()>)
      requires i < |dfd.nodes| && Valid(State())
      modifies this`mapNodeToProcessing, this`mapIdToElement, this`resolvedLinkageLabel, laf
      ensures match TransformNode(old(State()), dfd.nodes[i])
              case Ok(c) => r.Ok? && State() == c
              case Err(e) => r == Err(e)
      ensures r.Ok? ==> mapNodeToProcessing == old(mapNodeToProcessing)[i := |old(laf.processing)|]
    {
      var node := dfd.nodes[i];
      TransformNodeSteps(State(), node);
      var kind :- ProcessingKindOf(node);
      var processing := NewProcessing(kind);
      processing :- ResolveElementLabel(processing, node.properties);
      var linked :- ResolveLinkLabel(node.properties);
      processing := processing.(entityName := node.name, id := node.id);
      mapNodeToProcessing := mapNodeToProcessing[i := |laf.processing|];
      laf.processing := laf.processing + [processing];
      return Ok(());
    }

    /** Wires one flow: the destination's activity follows the source's. */
    method TransformFlow(flow: Flow) returns (r: Result<()>)
      requires MapInto(mapNodeToProcessing, |laf.processing|)
      modifies laf`processing
      ensures match WireFlow(old(laf.processing), mapNodeToProcessing, flow)
              case Ok(procs) => r.Ok? && laf.processing == procs
              case Err(e) => r == Err(e) && laf.processing == old(laf.processing)
    {
      if flow.source !in mapNodeToProcessing || flow.destination !in mapNodeToProcessing {
        return Err(DanglingFlow);
      }
      var source := mapNodeToProcessing[flow.source];
      var destination := mapNodeToProcessing[flow.destination];
      laf.processing := laf.processing[source := laf.processing[source].(following := laf.processing[source].following + [destination])];
      return Ok(());
    }

    /** One flow element per flow, in flow order. */
    method RecordFlowElements()
      requires Closed(dfd)
      modifies tracemodel`flowList
      ensures tracemodel.flowList == old(tracemodel.flowList) + FlowElements(dfd)
    {
      var k := 0;
      while k < |dfd.flows|
        invariant 0 <= k <= |dfd.flows|
        invariant tracemodel.flowList == old(tracemodel.flowList) + FlowElements(dfd)[..k]
      {
        var flow := dfd.flows[k];
        tracemodel.flowList := tracemodel.flowList + [FlowElement(k, dfd.nodes[flow.source].id, dfd.nodes[flow.destination].id)];
        assert FlowElements(dfd)[..k + 1] == FlowElements(dfd)[..k] + [FlowElementOf(dfd, k)];
        k := k + 1;
      }
      assert FlowElements(dfd)[..k] == FlowElements(dfd);
    }

    /** One trace per entry of the node map, in whatever order the map
        yields its entries. */
    method RecordTraces()
      requires tracemodel.tracesList == []
      modifies tracemodel`tracesList
      ensures forall t :: t in tracemodel.tracesList <==> t in TraceSet(mapNodeToProcessing)
      ensures forall j, j' :: 0 <= j < j' < |tracemodel.tracesList| ==>
                tracemodel.tracesList[j].node != tracemodel.tracesList[j'].node
    {
      var todo := mapNodeToProcessing.Keys;
      while todo != {}
        invariant todo <= mapNodeToProcessing.Keys
        invariant forall t :: t in tracemodel.tracesList <==>
                    t in TraceSet(mapNodeToProcessing) && t.node !in todo
        invariant forall j, j' :: 0 <= j < j' < |tracemodel.tracesList| ==>
                    tracemodel.tracesList[j].node != tracemodel.tracesList[j'].node
        decreases |todo|
      {
        var node :| node in todo;
        tracemodel.tracesList := tracemodel.tracesList + [Trace(node, mapNodeToProcessing[node])];
        todo := todo - {node};
      }
    }

    /** Removes the GDPR label types from the dictionary: they are collected
        first, then all removed at once. */
    method PruneDictionary()
      modifies dd
      ensures dd.labelTypes == Pruned(old(dd.labelTypes))
    {
      var labelTypes := dd.labelTypes;
      var gdprLabels: seq<LabelType> := [];
      var j := 0;
      while j < |labelTypes|
        invariant 0 <= j <= |labelTypes|
        invariant forall lt :: lt in gdprLabels <==> lt in labelTypes[..j] && IsGdprLabelType(lt)
      {
        if IsGdprLabelType(labelTypes[j]) {
          gdprLabels := gdprLabels + [labelTypes[j]];
        }
        assert labelTypes[..j + 1] == labelTypes[..j] + [labelTypes[j]];
        j := j + 1;
      }
      assert labelTypes[..j] == labelTypes;
      var kept: seq<LabelType> := [];
      j := 0;
      while j < |labelTypes|
        invariant 0 <= j <= |labelTypes|
        invariant kept == Pruned(labelTypes[..j])
      {
        assert labelTypes[..j + 1] == labelTypes[..j] + [labelTypes[j]];
        PrunedSnoc(labelTypes[..j], labelTypes[j]);
        assert labelTypes[j] in labelTypes[..j + 1];
        if labelTypes[j] !in gdprLabels {
          kept := kept + [labelTypes[j]];
        }
        j := j + 1;
      }
      assert labelTypes[..j] == labelTypes;
      dd.labelTypes := kept;
    }

    /** The steps after the two loops: the trace model is filled and the
        dictionary pruned. */
    method RecordTraceModelAndPrune()
      requires Closed(dfd) && tracemodel.flowList == [] && tracemodel.tracesList == []
      modifies tracemodel, dd
      ensures tracemodel.flowList == FlowElements(dfd)
      ensures forall t :: t in tracemodel.tracesList <==> t in TraceSet(mapNodeToProcessing)
      ensures forall j, j' :: 0 <= j < j' < |tracemodel.tracesList| ==>
                tracemodel.tracesList[j].node != tracemodel.tracesList[j'].node
      ensures dd.labelTypes == Pruned(old(dd.labelTypes))
    {
      RecordFlowElements();
      RecordTraces();
      PruneDictionary();
    }

    /** The node loop: one processing activity per node, in diagram order. */
    method TransformNodes() returns (r: Result<()>)
      requires Valid(State()) && laf.processing == [] && mapNodeToProcessing == map[]
      modifies this`mapNodeToProcessing, this`mapIdToElement, this`resolvedLinkageLabel, laf
      ensures match Transformation.TransformNodes(old(State()), dfd.nodes)
              case Ok(c) => r.Ok? && State() == c && mapNodeToProcessing == NodeMap(|dfd.nodes|)
              case Err(e) => r == Err(e)
    {
      var i := 0;
      while i < |dfd.nodes|
        invariant 0 <= i <= |dfd.nodes|
        invariant Valid(State()) && |laf.processing| == i
        invariant mapNodeToProcessing == NodeMap(i)
        invariant Transformation.TransformNodes(old(State()), dfd.nodes) ==
                    Transformation.TransformNodes(State(), dfd.nodes[i..])
      {
        r := NextNode(i);
        if r.Err? {
          return;
        }
        i := i + 1;
      }
      TransformNodesDone(State(), dfd.nodes);
      r := Ok(());
    }

    /** One turn of the node loop: what is left of the node pass after node
        `i` is the node pass over the nodes after it. */
    method NextNode(i: nat) returns (r: Result<()>)
      requires i < |dfd.nodes| && Valid(State()) && |laf.processing| == i
      requires mapNodeToProcessing == NodeMap(i)
      modifies this`mapNodeToProcessing, this`mapIdToElement, this`resolvedLinkageLabel, laf
      ensures r.Err? ==> Transformation.TransformNodes(old(State()), dfd.nodes[i..]) == Err(r.error)
      ensures r.Ok? ==> Valid(State()) && |laf.processing| == i + 1 && mapNodeToProcessing == NodeMap(i + 1)
      ensures r.Ok? ==> Transformation.TransformNodes(old(State()), dfd.nodes[i..]) ==
                          Transformation.TransformNodes(State(), dfd.nodes[i + 1..])
    {
      TransformNodesFrom(State(), dfd.nodes, i);
      r := TransformNodeAt(i);
    }

    /** The flow loop: every flow wired, in diagram order. */
    method TransformFlows() returns (r: Result<()>)
      requires MapInto(mapNodeToProcessing, |laf.processing|)
      modifies laf`processing
      ensures match WireFlows(old(laf.processing), mapNodeToProcessing, dfd.flows)
              case Ok(procs) => r.Ok? && laf.processing == procs
              case Err(e) => r == Err(e)
    {
      var k := 0;
      while k < |dfd.flows|
        invariant 0 <= k <= |dfd.flows|
        invariant |laf.processing| == |old(laf.processing)|
        invariant WireFlows(old(laf.processing), mapNodeToProcessing, dfd.flows) ==
                    WireFlows(laf.processing, mapNodeToProcessing, dfd.flows[k..])
      {
        assert dfd.flows[k..][0] == dfd.flows[k] && dfd.flows[k..][1..] == dfd.flows[k + 1..];
        var done :- TransformFlow(dfd.flows[k]);
        k := k + 1;
      }
      return Ok(());
    }

    /** The whole run: nodes, then flows, then the trace model, then the
        dictionary. */
    method Transform() returns (r: Result<()>)
      requires Fresh()
      modifies this`mapNodeToProcessing, this`mapIdToElement, this`resolvedLinkageLabel, laf, tracemodel, dd
      ensures match Transformation.Transform(dfd, old(dd.labelTypes))
              case Ok(out) =>
                && r.Ok? && laf.Value() == out.laf && tracemodel.flowList == out.flowList
                && (forall t :: t in tracemodel.tracesList <==> t in out.traces)
                && (forall j, j' :: 0 <= j < j' < |tracemodel.tracesList| ==>
                      tracemodel.tracesList[j].node != tracemodel.tracesList[j'].node)
                && dd.labelTypes == out.labelTypes
                && mapNodeToProcessing == NodeMap(|dfd.nodes|)
              case Err(e) => r == Err(e)
    {
      ghost var labelTypes := dd.labelTypes;
      TransformCases(dfd, labelTypes);
      var nodesDone :- TransformNodes();
      ghost var c := State();
      var flowsDone :- TransformFlows();
      assert laf.Value() == c.laf.(processing := laf.processing);
      RecordTraceModelAndPrune();
      return Ok(());
    }
  }

}
