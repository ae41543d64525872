/** The three label resolvers of the transformation, as functions of the
    engine's state: the processing kind of a node, the element labels that
    attach entities to a processing activity, and the link labels that relate
    two entities to each other. */
module Resolvers {
  import opened JavaStrings
  import opened Model
  import opened Labels
  import opened Registry

  // ---------------------------------------------------------------------
  // Processing kind
  // ---------------------------------------------------------------------

  /** The Processing variant made for a node: the first `GDPR::ofType:` label
      decides, read without its prefix and without any "Impl"; a node without
      such a label gets the variant of its structural kind. */
  function ProcessingKindOf(node: Node): (r: Result<ProcessingKind>)
    ensures OfTypeNames(node.properties) == [] && node.kind == StoreNode ==> r == Ok(Storing)
    ensures OfTypeNames(node.properties) == [] && node.kind == ExternalNode ==> r == Ok(Collecting)
    ensures OfTypeNames(node.properties) == [] && node.kind == ProcessNode ==> r == Ok(GenericProcessing)
    ensures OfTypeNames(node.properties) != [] ==>
              (r.Ok? <==> ProcessingKindNamed(OfTypeVariant(OfTypeNames(node.properties)[0])).Some?)
    ensures OfTypeNames(node.properties) != [] && r.Ok? ==>
              ProcessingKindName(r.value) == OfTypeVariant(OfTypeNames(node.properties)[0])
  {
    var names := OfTypeNames(node.properties);
    if names == [] then
      match node.kind
      case StoreNode => Ok(Storing)
      case ExternalNode => Ok(Collecting)
      case ProcessNode => Ok(GenericProcessing)
    else
      match ProcessingKindNamed(OfTypeVariant(names[0]))
      case None => Err(UnknownProcessingType)
      case Some(k) => Ok(k)
  }

  /** An `ofType` label naming a variant, with or without the "Impl" suffix of
      its implementation class, overrides the node's structural kind when no
      earlier label of the node is an `ofType` label. */
  lemma ExplicitKindWins(node: Node, at: nat, k: ProcessingKind, impl: bool)
    requires at < |node.properties|
    requires node.properties[at].name ==
               OfTypePrefix + ProcessingKindName(k) + (if impl then ImplMarker else "")
    requires forall j :: 0 <= j < at ==> !StartsWith(node.properties[j].name, OfTypePrefix)
    ensures ProcessingKindOf(node) == Ok(k)
  {
    assert StartsWith(node.properties[at].name, OfTypePrefix) by {
      assert node.properties[at].name[..|OfTypePrefix|] == OfTypePrefix;
    }
    FirstOfTypeLabel(node.properties, at);
    OfTypeVariantOfName(k);
    if !impl {
      assert OfTypePrefix + ProcessingKindName(k) + "" == OfTypePrefix + ProcessingKindName(k);
    }
  }

  // ---------------------------------------------------------------------
  // Element labels: GDPR::<Role>::<Type>:<Name>:<Id>
  // ---------------------------------------------------------------------

  /** The entity class each element role casts its entity to. */
  predicate Accepts(role: ElementRole, e: EntityRef) {
    match role
    case InputDataRole => e.DataRef?
    case OutputDataRole => e.DataRef?
    case LegalBasisRole => e.LegalBasisRef?
    case PurposeRole => e.PurposeRef?
    case ResponsibleRole => e.RoleRef?
  }

  /** The list of a processing activity that an element role appends to. */
  function Slot(p: Processing, role: ElementRole): seq<nat>
    requires role != ResponsibleRole
  {
    if role == InputDataRole then p.inputData
    else if role == OutputDataRole then p.outputData
    else if role == LegalBasisRole then p.onTheBasisOf
    else p.purpose
  }

  /** Attaches entity `e` to `p` in the named role: the four list roles
      append, `Responsible` overwrites the single responsible role. */
  function Attach(p: Processing, role: string, e: EntityRef): (r: Result<Processing>)
    ensures ElementRoleNamed(role).None? ==> r == Err(UnknownElementRole)
    ensures ElementRoleNamed(role).Some? ==> (r.Ok? <==> Accepts(ElementRoleNamed(role).value, e))
    ensures r.Ok? ==> SameProcessing(p, r.value) && r.value.following == p.following
    ensures r.Ok? && role == "Responsible" ==>
              && r.value.responsible == Some(e.i)
              && forall o :: o != ResponsibleRole ==> Slot(r.value, o) == Slot(p, o)
    ensures r.Ok? && role != "Responsible" ==>
              && r.value.responsible == p.responsible
              && Slot(r.value, ElementRoleNamed(role).value) == Slot(p, ElementRoleNamed(role).value) + [e.i]
              && forall o :: o != ResponsibleRole && o != ElementRoleNamed(role).value ==> Slot(r.value, o) == Slot(p, o)
  {
    match ElementRoleNamed(role)
    case None => Err(UnknownElementRole)
    case Some(k) =>
      if !Accepts(k, e) then Err(InvalidCast)
      else match k
        case InputDataRole => Ok(p.(inputData := p.inputData + [e.i]))
        case OutputDataRole => Ok(p.(outputData := p.outputData + [e.i]))
        case LegalBasisRole => Ok(p.(onTheBasisOf := p.onTheBasisOf + [e.i]))
        case PurposeRole => Ok(p.(purpose := p.purpose + [e.i]))
        case ResponsibleRole => Ok(p.(responsible := Some(e.i)))
  }

  lemma AttachKeepsOk(f: Facts, p: Processing, role: string, e: EntityRef)
    requires ProcessingOk(f, p) && RefOk(f, e) && Attach(p, role, e).Ok?
    ensures ProcessingOk(f, Attach(p, role, e).value)
  {
    var p' := Attach(p, role, e).value;
    var k := ElementRoleNamed(role).value;
    forall o | o != ResponsibleRole ensures Slot(p', o) <= Slot(p, o) + [e.i] {
    }
  }

  /** What resolving element labels may do: entities are created (never
      removed or changed), the processing activity keeps its kind, name, id
      and successors, its lists only grow, and the invariants hold. */
  predicate ElementStep(c: Ctx, p: Processing, c': Ctx, p': Processing) {
    && Valid(c') && ProcessingOk(c'.laf, p')
    && Extends(c.laf, c'.laf)
    && c'.resolved == c.resolved && c'.laf.processing == c.laf.processing
    && SameProcessing(p, p') && p'.following == p.following
    && forall o :: o != ResponsibleRole ==> Slot(p, o) <= Slot(p', o)
  }

  lemma ElementStepTransitive(c: Ctx, p: Processing, c1: Ctx, p1: Processing, c2: Ctx, p2: Processing)
    requires ElementStep(c, p, c1, p1) && ElementStep(c1, p1, c2, p2)
    ensures ElementStep(c, p, c2, p2)
  {
    ExtendsTransitive(c.laf, c1.laf, c2.laf);
    forall o | o != ResponsibleRole ensures Slot(p, o) <= Slot(p2, o) {
      assert Slot(p, o) <= Slot(p1, o) <= Slot(p2, o);
    }
  }

  /** One element label: its token is resolved first, then its role decides
      where the entity goes. */
  function ApplyElement(c: Ctx, p: Processing, lbl: Label): (r: Result<(Ctx, Processing)>)
    requires Valid(c) && ProcessingOk(c.laf, p)
    ensures ElementParts(lbl.name).Err? ==> r == Err(MalformedLabel)
    ensures r.Ok? ==> ElementStep(c, p, r.value.0, r.value.1)
  {
    var parts :- ElementParts(lbl.name);
    var x :- ResolveEntity(c, parts.1);
    ResolveEntityKeepsValid(c, parts.1);
    var p' :- Attach(p, parts.0, x.1);
    AttachStep(c, p, x.0, parts.0, x.1);
    Ok((x.0, p'))
  }

  /** What an element label does, step by step: its role and token are split
      off the label, the token is resolved to an entity (found by id or newly
      created), and that entity is attached to the activity in the role. */
  lemma ApplyElementSteps(c: Ctx, p: Processing, lbl: Label)
    requires Valid(c) && ProcessingOk(c.laf, p)
    ensures ElementParts(lbl.name).Ok? ==>
              var (role, token) := ElementParts(lbl.name).value;
              match ResolveEntity(c, token)
              case Err(e) => ApplyElement(c, p, lbl) == Err(e)
              case Ok(x) =>
                && x.0.ids[ParseToken(token).value.id] == x.1
                && ApplyElement(c, p, lbl) ==
                     match Attach(p, role, x.1)
                     case Err(e) => Err(e)
                     case Ok(p') => Ok((x.0, p'))
  {
  }

  /** Attaching an entity of facts that grew from `c`'s is an element step. */
  lemma AttachStep(c: Ctx, p: Processing, c': Ctx, role: string, e: EntityRef)
    requires Valid(c') && ProcessingOk(c.laf, p) && Extends(c.laf, c'.laf)
    requires c'.resolved == c.resolved && c'.laf.processing == c.laf.processing
    requires RefOk(c'.laf, e) && Attach(p, role, e).Ok?
    ensures ElementStep(c, p, c', Attach(p, role, e).value)
  {
    ProcessingOkGrows(c.laf, c'.laf, p);
    AttachKeepsOk(c'.laf, p, role, e);
    var p' := Attach(p, role, e).value;
    forall o | o != ResponsibleRole ensures Slot(p, o) <= Slot(p', o) {
    }
  }

  /** All element labels of a node (those whose label type is `GDPRElement`),
      in order, applied to its processing activity. */
  function ResolveElements(c: Ctx, p: Processing, labels: seq<Label>): (r: Result<(Ctx, Processing)>)
    requires Valid(c) && ProcessingOk(c.laf, p)
    ensures r.Ok? ==> ElementStep(c, p, r.value.0, r.value.1)
    ensures (forall l :: l in labels ==> l.typeName != ElementLabelType) ==> r == Ok((c, p))
    decreases |labels|
  {
    if labels == [] then Ok((c, p))
    else if labels[0].typeName != ElementLabelType then ResolveElements(c, p, labels[1..])
    else
      var x :- ApplyElement(c, p, labels[0]);
      var r := ResolveElements(x.0, x.1, labels[1..]);
      if r.Ok? then
        ElementStepTransitive(c, p, x.0, x.1, r.value.0, r.value.1);
        r
      else r
  }

  /** One step of the element resolver, as the engine's loop takes it. */
  lemma ResolveElementsStep(c: Ctx, p: Processing, labels: seq<Label>)
    requires Valid(c) && ProcessingOk(c.laf, p) && labels != []
    ensures labels[0].typeName != ElementLabelType ==>
              ResolveElements(c, p, labels) == ResolveElements(c, p, labels[1..])
    ensures labels[0].typeName == ElementLabelType ==>
              match ApplyElement(c, p, labels[0])
              case Err(e) => ResolveElements(c, p, labels) == Err(e)
              case Ok(x) => && Valid(x.0) && ProcessingOk(x.0.laf, x.1)
                            && ResolveElements(c, p, labels) == ResolveElements(x.0, x.1, labels[1..])
  {
  }

  /** Resolving `a + b` is resolving `a`, then `b` from where `a` left off. */
  lemma {:induction false} ResolveElementsConcat(c: Ctx, p: Processing, a: seq<Label>, b: seq<Label>)
    requires Valid(c) && ProcessingOk(c.laf, p)
    ensures ResolveElements(c, p, a + b) ==
              match ResolveElements(c, p, a)
              case Err(e) => Err(e)
              case Ok(x) => ResolveElements(x.0, x.1, b)
    decreases |a|
  {
    if a == [] {
      assert a + b == b;
    } else {
      assert (a + b)[0] == a[0] && (a + b)[1..] == a[1..] + b;
      if a[0].typeName != ElementLabelType {
        ResolveElementsConcat(c, p, a[1..], b);
      } else if ApplyElement(c, p, a[0]).Ok? {
        var x := ApplyElement(c, p, a[0]).value;
        ResolveElementsConcat(x.0, x.1, a[1..], b);
      }
    }
  }

  /** The last `Responsible` label of a node decides its responsible role,
      whatever the earlier ones said. */
  lemma ResponsibleLastWins(c: Ctx, p: Processing, labels: seq<Label>, last: Label, token: string)
    requires Valid(c) && ProcessingOk(c.laf, p)
    requires last.typeName == ElementLabelType
    requires ElementParts(last.name) == Ok(("Responsible", token))
    requires ResolveElements(c, p, labels + [last]).Ok?
    ensures ResolveElements(c, p, labels).Ok?
    ensures var x := ResolveElements(c, p, labels).value;
            ResolveEntity(x.0, token).Ok? &&
            ResolveElements(c, p, labels + [last]).value.1.responsible ==
              Some(ResolveEntity(x.0, token).value.1.i)
  {
    ResolveElementsConcat(c, p, labels, [last]);
    var x := ResolveElements(c, p, labels).value;
    ResponsibleLabel(x.0, x.1, last, token);
  }

  /** A single `Responsible` element label sets the responsible role to the
      entity its token names. */
  lemma ResponsibleLabel(c: Ctx, p: Processing, last: Label, token: string)
    requires Valid(c) && ProcessingOk(c.laf, p)
    requires last.typeName == ElementLabelType
    requires ElementParts(last.name) == Ok(("Responsible", token))
    requires ResolveElements(c, p, [last]).Ok?
    ensures ResolveEntity(c, token).Ok?
    ensures ResolveElements(c, p, [last]).value.1.responsible == Some(ResolveEntity(c, token).value.1.i)
  {
    ResolveElementsStep(c, p, [last]);
    assert [last][1..] == [];
    var y := ApplyElement(c, p, last);
    assert y.Ok? && ResolveElements(c, p, [last]) == Ok(y.value);
    assert y.value.1 == Attach(p, "Responsible", ResolveEntity(c, token).value.1).value;
  }

  // ---------------------------------------------------------------------
  // Link labels: GDPR::<Type>:<Name>:<Id>::<Role>::<Type>:<Name>:<Id>
  // ---------------------------------------------------------------------

  /** The casts a link role applies to its two entities. */
  predicate LinkTyped(f: Facts, role: LinkRole, a: EntityRef, b: EntityRef)
    requires RefOk(f, a) && RefOk(f, b)
  {
    match role
    case ConsenteeLink =>
      KindOf(f, a) == LegalBasisEntity(Consent) && KindOf(f, b) == RoleEntity(NaturalPerson)
    case ContractPartyLink =>
      KindOf(f, a) == LegalBasisEntity(PerformanceOfContract) && b.RoleRef?
    case ForPurposeLink =>
      a.LegalBasisRef? && b.PurposeRef?
    case ForDataLink =>
      a.LegalBasisRef? && KindOf(f, b) == DataEntity(PersonalData)
    case ReferenceLink =>
      KindOf(f, a) == DataEntity(PersonalData) && KindOf(f, b) == RoleEntity(NaturalPerson)
  }

  /** `f'` differs from `f` at most in the references held by entity `a`. */
  predicate ChangedOnly(f: Facts, f': Facts, a: EntityRef) {
    && f'.processing == f.processing && f'.purposes == f.purposes
    && f'.involvedParties == f.involvedParties
    && |f'.legalBases| == |f.legalBases| && |f'.data| == |f.data|
    && (forall i :: 0 <= i < |f.legalBases| && a != LegalBasisRef(i) ==> f'.legalBases[i] == f.legalBases[i])
    && (forall i :: 0 <= i < |f.data| && a != DataRef(i) ==> f'.data[i] == f.data[i])
  }

  /** Relates entity `a` to entity `b` as the link role says: `Consentee` and
      `ForData` set a single reference, `ContractParty`, `ForPurpose` and
      `Reference` append to a list. */
  function Link(f: Facts, a: EntityRef, role: string, b: EntityRef): (r: Result<Facts>)
    requires RefOk(f, a) && RefOk(f, b)
    ensures LinkRoleNamed(role).None? ==> r == Err(UnknownLinkRole)
    ensures LinkRoleNamed(role).Some? ==> (r.Ok? <==> LinkTyped(f, LinkRoleNamed(role).value, a, b))
    ensures r.Ok? ==> |r.value.legalBases| == |f.legalBases| && |r.value.data| == |f.data|
    ensures r.Ok? && role == "Consentee" ==>
              r.value.legalBases[a.i] == f.legalBases[a.i].(consentee := Some(b.i))
    ensures r.Ok? && role == "ContractParty" ==>
              r.value.legalBases[a.i] ==
                f.legalBases[a.i].(contractingParty := f.legalBases[a.i].contractingParty + [b.i])
    ensures r.Ok? && role == "ForPurpose" ==>
              r.value.legalBases[a.i] == f.legalBases[a.i].(forPurpose := f.legalBases[a.i].forPurpose + [b.i])
    ensures r.Ok? && role == "ForData" ==>
              r.value.legalBases[a.i] == f.legalBases[a.i].(personalData := Some(b.i))
    ensures r.Ok? && role == "Reference" ==>
              r.value.data[a.i] == f.data[a.i].(dataReferences := f.data[a.i].dataReferences + [b.i])
  {
    match LinkRoleNamed(role)
    case None => Err(UnknownLinkRole)
    case Some(k) =>
      if !LinkTyped(f, k, a, b) then Err(InvalidCast)
      else match k
        case ConsenteeLink =>
          var lb := f.legalBases[a.i];
          Ok(f.(legalBases := f.legalBases[a.i := lb.(consentee := Some(b.i))]))
        case ContractPartyLink =>
          var lb := f.legalBases[a.i];
          Ok(f.(legalBases := f.legalBases[a.i := lb.(contractingParty := lb.contractingParty + [b.i])]))
        case ForPurposeLink =>
          var lb := f.legalBases[a.i];
          Ok(f.(legalBases := f.legalBases[a.i := lb.(forPurpose := lb.forPurpose + [b.i])]))
        case ForDataLink =>
          var lb := f.legalBases[a.i];
          Ok(f.(legalBases := f.legalBases[a.i := lb.(personalData := Some(b.i))]))
        case ReferenceLink =>
          var d := f.data[a.i];
          Ok(f.(data := f.data[a.i := d.(dataReferences := d.dataReferences + [b.i])]))
  }

  /** A link changes the references of its first entity and nothing else. */
  lemma LinkChangesOnlyFirst(f: Facts, a: EntityRef, role: string, b: EntityRef)
    requires RefOk(f, a) && RefOk(f, b) && Link(f, a, role, b).Ok?
    ensures ChangedOnly(f, Link(f, a, role, b).value, a)
    ensures Extends(f, Link(f, a, role, b).value)
  {
    var f' := Link(f, a, role, b).value;
    match LinkRoleNamed(role).value {
      case ConsenteeLink =>
        assert f' == f.(legalBases := f.legalBases[a.i := f.legalBases[a.i].(consentee := Some(b.i))]);
      case ContractPartyLink =>
        assert f' == f.(legalBases := f.legalBases[a.i := f'.legalBases[a.i]]);
      case ForPurposeLink =>
        assert f' == f.(legalBases := f.legalBases[a.i := f'.legalBases[a.i]]);
      case ForDataLink =>
        assert f' == f.(legalBases := f.legalBases[a.i := f.legalBases[a.i].(personalData := Some(b.i))]);
      case ReferenceLink =>
        assert f' == f.(data := f.data[a.i := f'.data[a.i]]);
    }
  }

  /** A link keeps every reference of the facts well typed: the casts it
      passed are exactly what the new reference needs. */
  lemma LinkKeepsFactsOk(f: Facts, a: EntityRef, role: string, b: EntityRef)
    requires FactsOk(f) && RefOk(f, a) && RefOk(f, b) && Link(f, a, role, b).Ok?
    ensures FactsOk(Link(f, a, role, b).value)
  {
    var f' := Link(f, a, role, b).value;
    LinkChangesOnlyFirst(f, a, role, b);
    forall i | 0 <= i < |f'.processing| ensures ProcessingOk(f', f'.processing[i]) {
      ProcessingOkGrows(f, f', f.processing[i]);
    }
    LinkKeepsBasesOk(f, a, role, b);
    LinkKeepsDataOk(f, a, role, b);
  }

  lemma LinkKeepsBasesOk(f: Facts, a: EntityRef, role: string, b: EntityRef)
    requires FactsOk(f) && RefOk(f, a) && RefOk(f, b) && Link(f, a, role, b).Ok?
    requires ChangedOnly(f, Link(f, a, role, b).value, a) && Extends(f, Link(f, a, role, b).value)
    ensures var f' := Link(f, a, role, b).value;
            forall i :: 0 <= i < |f'.legalBases| ==> LegalBasisOk(f', f'.legalBases[i])
  {
    var f' := Link(f, a, role, b).value;
    forall i | 0 <= i < |f'.legalBases| ensures LegalBasisOk(f', f'.legalBases[i]) {
      LegalBasisOkGrows(f, f', f.legalBases[i]);
    }
  }

  lemma LinkKeepsDataOk(f: Facts, a: EntityRef, role: string, b: EntityRef)
    requires FactsOk(f) && RefOk(f, a) && RefOk(f, b) && Link(f, a, role, b).Ok?
    requires ChangedOnly(f, Link(f, a, role, b).value, a) && Extends(f, Link(f, a, role, b).value)
    ensures var f' := Link(f, a, role, b).value;
            forall i :: 0 <= i < |f'.data| ==> DataOk(f', f'.data[i])
  {
    var f' := Link(f, a, role, b).value;
    forall i | 0 <= i < |f'.data| ensures DataOk(f', f'.data[i]) {
      DataOkGrows(f, f', f.data[i]);
    }
  }

  /** The body of a link label: its first entity is resolved, then its
      second, then the relation between them is applied. */
  function Relate(c: Ctx, first: string, role: string, second: string): (r: Result<Ctx>)
    requires Valid(c)
    ensures r.Ok? ==> && Valid(r.value) && Extends(c.laf, r.value.laf)
                      && r.value.laf.processing == c.laf.processing && r.value.resolved == c.resolved
  {
    var x :- ResolveEntity(c, first);
    ResolveEntityKeepsValid(c, first);
    var y :- ResolveEntity(x.0, second);
    ResolveEntityKeepsValid(x.0, second);
    RefOkGrows(x.0.laf, y.0.laf, x.1);
    var f :- Link(y.0.laf, x.1, role, y.1);
    LinkChangesOnlyFirst(y.0.laf, x.1, role, y.1);
    LinkKeepsFactsOk(y.0.laf, x.1, role, y.1);
    RegisteredAfterRelink(y.0, f);
    ExtendsTransitive(c.laf, x.0.laf, y.0.laf);
    ExtendsTransitive(c.laf, y.0.laf, f);
    Ok(y.0.(laf := f))
  }

  /** The steps of `Relate` one after the other, with what each step needs
      of the previous ones. */
  lemma RelateSteps(c: Ctx, first: string, role: string, second: string)
    requires Valid(c)
    ensures ResolveEntity(c, first).Err? ==> Relate(c, first, role, second) == Err(ResolveEntity(c, first).error)
    ensures ResolveEntity(c, first).Ok? ==>
              var (c1, a) := ResolveEntity(c, first).value;
              && (ResolveEntity(c1, second).Err? ==>
                    Relate(c, first, role, second) == Err(ResolveEntity(c1, second).error))
              && (ResolveEntity(c1, second).Ok? ==>
                    var (c2, b) := ResolveEntity(c1, second).value;
                    && RefOk(c2.laf, a) && RefOk(c2.laf, b)
                    && Relate(c, first, role, second) ==
                         match Link(c2.laf, a, role, b)
                         case Err(e) => Err(e)
                         case Ok(f) => Ok(c2.(laf := f)))
  {
    if ResolveEntity(c, first).Ok? {
      var (c1, a) := ResolveEntity(c, first).value;
      ResolveEntityKeepsValid(c, first);
      if ResolveEntity(c1, second).Ok? {
        ResolveEntityKeepsValid(c1, second);
        RefOkGrows(c1.laf, ResolveEntity(c1, second).value.0.laf, a);
      }
    }
  }

  /** One link label, skipped when it was applied before or does not have
      exactly three parts; otherwise it is applied and remembered. */
  function ApplyLink(c: Ctx, lbl: Label): (r: Result<Ctx>)
    requires Valid(c)
    ensures lbl.key in c.resolved ==> r == Ok(c)
    ensures LinkParts(lbl.name).None? ==> r == Ok(c)
    ensures r.Ok? ==> && Valid(r.value) && Extends(c.laf, r.value.laf)
                      && r.value.laf.processing == c.laf.processing
    ensures r.Ok? && lbl.key !in c.resolved && LinkParts(lbl.name).Some? ==>
              r.value.resolved == c.resolved + {lbl.key}
  {
    if lbl.key in c.resolved then Ok(c)
    else match LinkParts(lbl.name)
      case None => Ok(c)
      case Some(parts) =>
        var c' :- Relate(c, parts.0, parts.1, parts.2);
        Ok(c'.(resolved := c'.resolved + {lbl.key}))
  }

  /** What an unresolved link label with three parts does: the two tokens are
      related in the role, and the label is then marked resolved. */
  lemma ApplyLinkSteps(c: Ctx, lbl: Label)
    requires Valid(c) && lbl.key !in c.resolved && LinkParts(lbl.name).Some?
    ensures var (first, role, second) := LinkParts(lbl.name).value;
            ApplyLink(c, lbl) ==
              match Relate(c, first, role, second)
              case Err(e) => Err(e)
              case Ok(c') => Ok(c'.(resolved := c.resolved + {lbl.key}))
  {
  }

  /** A label the link resolver looks at and would apply. */
  predicate IsLink(l: Label) {
    StartsWith(l.name, GdprPrefix) && LinkParts(l.name).Some?
  }

  /** All link labels of a node (those starting with `GDPR::`), in order. */
  function ResolveLinks(c: Ctx, labels: seq<Label>): (r: Result<Ctx>)
    requires Valid(c)
    ensures r.Ok? ==> && Valid(r.value) && Extends(c.laf, r.value.laf)
                      && r.value.laf.processing == c.laf.processing
                      && c.resolved <= r.value.resolved
    decreases |labels|
  {
    if labels == [] then Ok(c)
    else if !StartsWith(labels[0].name, GdprPrefix) then ResolveLinks(c, labels[1..])
    else
      match ApplyLink(c, labels[0])
      case Err(e) => Err(e)
      case Ok(c1) =>
        var r := ResolveLinks(c1, labels[1..]);
        if r.Err? then r
        else
          ExtendsTransitive(c.laf, c1.laf, r.value.laf);
          r
  }

  /** One step of the link resolver, as the engine's loop takes it. */
  lemma ResolveLinksStep(c: Ctx, labels: seq<Label>)
    requires Valid(c) && labels != []
    ensures !StartsWith(labels[0].name, GdprPrefix) ==> ResolveLinks(c, labels) == ResolveLinks(c, labels[1..])
    ensures StartsWith(labels[0].name, GdprPrefix) ==>
              match ApplyLink(c, labels[0])
              case Err(e) => ResolveLinks(c, labels) == Err(e)
              case Ok(c1) => Valid(c1) && ResolveLinks(c, labels) == ResolveLinks(c1, labels[1..])
  {
  }

  /** After the link resolver, every link label it was given is resolved,
      and every label it newly resolved is one of its link labels. */
  lemma {:induction false} ResolveLinksCovers(c: Ctx, labels: seq<Label>)
    requires Valid(c) && ResolveLinks(c, labels).Ok?
    ensures var r := ResolveLinks(c, labels).value;
            && (forall l :: l in labels && IsLink(l) ==> l.key in r.resolved)
            && (forall k :: k in r.resolved && k !in c.resolved ==>
                  exists l :: l in labels && IsLink(l) && l.key == k)
    decreases |labels|
  {
    if labels != [] {
      ResolveLinksStep(c, labels);
      var r := ResolveLinks(c, labels).value;
      var c1 := if StartsWith(labels[0].name, GdprPrefix) then ApplyLink(c, labels[0]).value else c;
      ResolveLinksCovers(c1, labels[1..]);
      assert labels == [labels[0]] + labels[1..];
      forall l | l in labels && IsLink(l) ensures l.key in r.resolved {
        if l != labels[0] {
          assert l in labels[1..];
        }
      }
      forall k | k in r.resolved && k !in c.resolved
        ensures exists l :: l in labels && IsLink(l) && l.key == k
      {
        if k in c1.resolved {
          assert labels[0] in labels && IsLink(labels[0]) && labels[0].key == k;
        } else {
          var l :| l in labels[1..] && IsLink(l) && l.key == k;
          assert l in labels;
        }
      }
    }
  }

  /** When every link label is already resolved, the link resolver changes nothing. */
  lemma {:induction false} SettledLinks(c: Ctx, labels: seq<Label>)
    requires Valid(c)
    requires forall l :: l in labels && IsLink(l) ==> l.key in c.resolved
    ensures ResolveLinks(c, labels) == Ok(c)
    decreases |labels|
  {
    if labels != [] {
      SettledLinks(c, labels[1..]);
    }
  }

  /** Each link label is applied at most once: running the resolver again
      over the same labels, e.g. for another node that shares them, is a no-op. */
  lemma ResolveLinksOnce(c: Ctx, labels: seq<Label>)
    requires Valid(c) && ResolveLinks(c, labels).Ok?
    ensures ResolveLinks(ResolveLinks(c, labels).value, labels) == ResolveLinks(c, labels)
  {
    ResolveLinksCovers(c, labels);
    SettledLinks(ResolveLinks(c, labels).value, labels);
  }
}
