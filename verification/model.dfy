/** The data the transformation reads and writes: the data-flow diagram and
    its label dictionary (input), the legal-assessment facts (output), the
    trace model (output), and the fatal errors that abort a run. */
module Model {

  datatype Option<+T> = None | Some(value: T)

  /** The fatal outcomes of a run; each stands for an exception the
      transformation lets escape. */
  datatype TransformError =
    | MalformedLabel         // a token or element label with too few fields (an array index out of bounds)
    | UnknownProcessingType  // an `ofType` label naming no Processing variant
    | UnknownEntityType      // a `Type:Name:Id` token naming no entity class
    | UnknownElementRole     // an element label whose role is not one of the five
    | UnknownLinkRole        // a link label whose role is not one of the five
    | InvalidCast            // a registered entity of the wrong class for its role
    | DanglingFlow           // a flow endpoint that is not a node of the diagram

  datatype Result<+T> = Ok(value: T) | Err(error: TransformError) {
    predicate IsFailure() {
      Err?
    }

    function PropagateFailure<U>(): Result<U>
      requires Err?
    {
      Err(error)
    }

    function Extract(): T
      requires Ok?
    {
      value
    }
  }

  // ---------------------------------------------------------------------
  // The data-flow diagram and its data dictionary
  // ---------------------------------------------------------------------

  /** The identity of a label object. Labels are shared objects: the same
      label may be attached to several nodes, and the link resolver tells
      labels apart by identity, not by text. */
  type LabelKey = nat

  /** A label: its identity, its text, and the name of the label type that
      contains it in the data dictionary. */
  datatype Label = Label(key: LabelKey, name: string, typeName: string)

  datatype LabelType = LabelType(name: string, labels: seq<Label>)

  datatype NodeKind = ProcessNode | StoreNode | ExternalNode

  datatype Node = Node(id: string, name: string, kind: NodeKind, properties: seq<Label>)

  /** A flow, its endpoints given by their position in the diagram's node list. */
  datatype Flow = Flow(source: nat, destination: nat)

  datatype DataFlowDiagram = DataFlowDiagram(nodes: seq<Node>, flows: seq<Flow>)

  // ---------------------------------------------------------------------
  // The legal-assessment facts
  // ---------------------------------------------------------------------

  datatype ProcessingKind = Collecting | Useage | Storing | Transfering | GenericProcessing
  datatype LegalBasisKind = Consent | PerformanceOfContract | Obligation | ExerciceOfPublicAuthority
  datatype DataKind = PlainData | PersonalData
  datatype RoleKind = Controller | NaturalPerson | ThirdParty

  /** A processing activity. Its references are positions: `inputData` and
      `outputData` in the facts' data, `onTheBasisOf` in the legal bases,
      `purpose` in the purposes, `responsible` in the involved parties and
      `following` in the processing list itself. */
  datatype Processing = Processing(
    kind: ProcessingKind, entityName: string, id: string,
    inputData: seq<nat>, outputData: seq<nat>, onTheBasisOf: seq<nat>, purpose: seq<nat>,
    responsible: Option<nat>, following: seq<nat>)

  /** A legal basis. `consentee` (Consent only) and `contractingParty`
      (PerformanceOfContract only) point into the involved parties,
      `forPurpose` into the purposes, `personalData` into the data. */
  datatype LegalBasis = LegalBasis(
    kind: LegalBasisKind, entityName: string, id: string,
    consentee: Option<nat>, contractingParty: seq<nat>, forPurpose: seq<nat>,
    personalData: Option<nat>)

  /** A data item; `dataReferences` (PersonalData only) point into the involved parties. */
  datatype Data = Data(kind: DataKind, entityName: string, id: string, dataReferences: seq<nat>)

  datatype Purpose = Purpose(entityName: string, id: string)

  /** A role keeps its display name in `name` besides its entity name. */
  datatype Role = Role(kind: RoleKind, name: string, entityName: string, id: string)

  datatype Facts = Facts(
    processing: seq<Processing>, legalBases: seq<LegalBasis>, data: seq<Data>,
    purposes: seq<Purpose>, involvedParties: seq<Role>)

  const EmptyFacts := Facts([], [], [], [], [])

  /** A processing activity just created for a node, before anything is attached. */
  function NewProcessing(kind: ProcessingKind): Processing {
    Processing(kind, "", "", [], [], [], [], None, [])
  }

  // ---------------------------------------------------------------------
  // The trace model
  // ---------------------------------------------------------------------

  /** The trace of one flow: its position in the diagram and its endpoints' ids. */
  datatype FlowElement = FlowElement(flow: nat, sourceId: string, destinationId: string)

  /** A node (its position in the diagram) paired with the processing
      activity made for it (its position in the facts). */
  datatype Trace = Trace(node: nat, processing: nat)

  // ---------------------------------------------------------------------
  // Class names, as the transformation compares them with label text
  // ---------------------------------------------------------------------

  function ProcessingKindName(k: ProcessingKind): string {
    match k
    case Collecting => "Collecting"
    case Useage => "Useage"
    case Storing => "Storing"
    case Transfering => "Transfering"
    case GenericProcessing => "Processing"
  }

  /** The Processing variant a type name selects: the one whose class name it is. */
  function ProcessingKindNamed(name: string): (r: Option<ProcessingKind>)
    ensures r.Some? ==> ProcessingKindName(r.value) == name
    ensures forall k :: ProcessingKindName(k) == name ==> r == Some(k)
  {
    if name == "Useage" then Some(Useage)
    else if name == "Transfering" then Some(Transfering)
    else if name == "Storing" then Some(Storing)
    else if name == "Collecting" then Some(Collecting)
    else if name == "Processing" then Some(GenericProcessing)
    else None
  }

  /** The entity classes a `Type:Name:Id` token can name. */
  datatype EntityKind =
    | LegalBasisEntity(basis: LegalBasisKind)
    | DataEntity(data: DataKind)
    | PurposeEntity
    | RoleEntity(role: RoleKind)

  function EntityKindName(k: EntityKind): string {
    match k
    case LegalBasisEntity(Consent) => "Consent"
    case LegalBasisEntity(PerformanceOfContract) => "PerformanceOfContract"
    case LegalBasisEntity(Obligation) => "Obligation"
    case LegalBasisEntity(ExerciceOfPublicAuthority) => "ExerciceOfPublicAuthority"
    case DataEntity(PlainData) => "Data"
    case DataEntity(PersonalData) => "PersonalData"
    case PurposeEntity => "Purpose"
    case RoleEntity(Controller) => "Controller"
    case RoleEntity(NaturalPerson) => "NaturalPerson"
    case RoleEntity(ThirdParty) => "ThirdParty"
  }

  /** The entity class a type name selects: the one whose class name it is. */
  function EntityKindNamed(name: string): (r: Option<EntityKind>)
    ensures r.Some? ==> EntityKindName(r.value) == name
    ensures forall k :: EntityKindName(k) == name ==> r == Some(k)
  {
    if name == "Consent" then Some(LegalBasisEntity(Consent))
    else if name == "PerformanceOfContract" then Some(LegalBasisEntity(PerformanceOfContract))
    else if name == "Obligation" then Some(LegalBasisEntity(Obligation))
    else if name == "ExerciceOfPublicAuthority" then Some(LegalBasisEntity(ExerciceOfPublicAuthority))
    else if name == "Data" then Some(DataEntity(PlainData))
    else if name == "PersonalData" then Some(DataEntity(PersonalData))
    else if name == "Purpose" then Some(PurposeEntity)
    else if name == "Controller" then Some(RoleEntity(Controller))
    else if name == "NaturalPerson" then Some(RoleEntity(NaturalPerson))
    else if name == "ThirdParty" then Some(RoleEntity(ThirdParty))
    else None
  }

  /** The roles of an element label `GDPR::<Role>::<Token>`. */
  datatype ElementRole = InputDataRole | OutputDataRole | LegalBasisRole | PurposeRole | ResponsibleRole

  function ElementRoleName(r: ElementRole): string {
    match r
    case InputDataRole => "InputData"
    case OutputDataRole => "OutputData"
    case LegalBasisRole => "LegalBasis"
    case PurposeRole => "Purpose"
    case ResponsibleRole => "Responsible"
  }

  function ElementRoleNamed(name: string): (r: Option<ElementRole>)
    ensures r.Some? ==> ElementRoleName(r.value) == name
    ensures forall k :: ElementRoleName(k) == name ==> r == Some(k)
  {
    if name == "InputData" then Some(InputDataRole)
    else if name == "OutputData" then Some(OutputDataRole)
    else if name == "LegalBasis" then Some(LegalBasisRole)
    else if name == "Purpose" then Some(PurposeRole)
    else if name == "Responsible" then Some(ResponsibleRole)
    else None
  }

  /** The relations of a link label `GDPR::<Token>::<Role>::<Token>`. */
  datatype LinkRole = ConsenteeLink | ContractPartyLink | ForPurposeLink | ForDataLink | ReferenceLink

  function LinkRoleName(r: LinkRole): string {
    match r
    case ConsenteeLink => "Consentee"
    case ContractPartyLink => "ContractParty"
    case ForPurposeLink => "ForPurpose"
    case ForDataLink => "ForData"
    case ReferenceLink => "Reference"
  }

  function LinkRoleNamed(name: string): (r: Option<LinkRole>)
    ensures r.Some? ==> LinkRoleName(r.value) == name
    ensures forall k :: LinkRoleName(k) == name ==> r == Some(k)
  {
    if name == "Consentee" then Some(ConsenteeLink)
    else if name == "ContractParty" then Some(ContractPartyLink)
    else if name == "ForPurpose" then Some(ForPurposeLink)
    else if name == "ForData" then Some(ForDataLink)
    else if name == "Reference" then Some(ReferenceLink)
    else None
  }
}
