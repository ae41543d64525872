# DFD2GDPR transformation engine, modelled in Dafny

DFD2GDPR turns an annotated data-flow diagram into two models:

- **Legal-assessment facts**: processing activities, legal bases, data, purposes and roles.
- **A trace model**: one flow element per flow and one trace per node.

The diagram's nodes and flows carry string labels in a small grammar:

- `GDPR::ofType:<Type>` chooses the processing variant of a node.
- `GDPR::<Role>::<Type>:<Name>:<Id>` attaches an entity to a node's processing activity.
- `GDPR::<Type>:<Name>:<Id>::<Role>::<Type>:<Name>:<Id>` relates two entities to each other.

Every entity is created on the first token that carries its id and found by id afterwards. When the run ends, the three GDPR label types are removed from the data dictionary.

The project models the engine of `src/DFD2GDPR.java`, file by file:

| File | Module | What it holds |
|---|---|---|
| `java_strings.dfy` | `JavaStrings` | The exact semantics of `String.replace`, `replaceFirst` and `split`. `split` drops trailing empty fields and returns the input whole when the separator does not occur. |
| `model.dfy` | `Model` | The diagram, the dictionary, the facts, the trace records and the error outcomes. Also the class-name tables the engine matches label text against. |
| `labels.dfy` | `Labels` | The label grammar as functions, with round-trip lemmas (a written token, element label or link label reads back as what was written). |
| `registry.dfy` | `Registry` | The entity registry, `resolveAndCreateElementType`, as a function over the engine state, plus the invariants the whole run keeps. |
| `resolvers.dfy` | `Resolvers` | The processing-kind resolver, the element-label resolver and the link-label resolver, as functions. |
| `transformation.dfy` | `Transformation` | The whole run, `transform`, as a function, with the properties of its output. |
| `engine.dfy` | `Engine` | The engine as classes with fields updated in place. |

The invariants in `registry.dfy`:

- every stored reference points at an entity of the class its cast demands (`FactsOk`);
- entities are never removed and never change class, name or id (`Extends`);
- the registry knows exactly the registered entities, each under its own id (`Registered`).

The classes in `engine.dfy` are `LegalAssessmentFacts`, `TraceModel`, `DataDictionary` and `Dfd2Gdpr`. `Dfd2Gdpr` holds `mapNodeToProcessing`, `mapIdToElement`, `resolvedLinkageLabel` and `laf`. Its methods loop over nodes, labels and flows as the Java code does. Each method is proved to end in the state that the corresponding function of `Transformation`, `Resolvers` or `Registry` computes, or to return that function's error.

Identities are represented as follows:

- Entities and processing activities refer to each other by position in the facts' collections.
- Nodes are identified by their position in the diagram, and flow endpoints are node positions.
- A label's object identity is a `LabelKey`. The label type that contains it is recorded on the label as `typeName`.

Three behaviours of the code the model keeps:

- A link label that does not split into exactly three parts is skipped and is *not* added to the resolved set. A label whose relation fails is not added either, because the run aborts (`src/DFD2GDPR.java:176`, `:202`).
- Every "Impl" is removed from a type name, not only a trailing one (`src/DFD2GDPR.java:144`, `:240`).
- A token may have more than three `:`-separated fields; the fields after the third are ignored. Fields are counted after `split` has dropped the trailing empty ones (`src/DFD2GDPR.java:239-242`).

## Model

| member | source | states |
|---|---|---|
| Model.ProcessingKindNamed | src/DFD2GDPR.java:147-159 | A type name selects the Processing variant whose class name it is, and only that one; any other name selects none. |
| Model.EntityKindNamed | src/DFD2GDPR.java:248-283 | A type name selects the entity class whose simple class name it is (four legal bases, two data kinds, purpose, three roles), and only that one. |
| Model.ElementRoleNamed | src/DFD2GDPR.java:216-233 | An element role name selects the one of the five roles it names, and nothing else. |
| Model.LinkRoleNamed | src/DFD2GDPR.java:182-199 | A link role name selects the one of the five relations it names, and nothing else. |
| JavaStrings.ReplaceAll | src/DFD2GDPR.java:175 | Removing every occurrence leaves the text unchanged exactly when the pattern does not occur, and otherwise makes it strictly shorter. |
| JavaStrings.ReplaceFirst | src/DFD2GDPR.java:210 | When the text starts with the pattern, only that leading occurrence goes. A text without the pattern is unchanged. Otherwise exactly one occurrence's length is removed. |
| JavaStrings.ReplaceAllThrough | src/DFD2GDPR.java:175 | `replace` goes on past the first occurrence: after a prefix free of the pattern, that occurrence is replaced and every later one is replaced as well. |
| JavaStrings.ReplaceFirstOnce | src/DFD2GDPR.java:210 | `replaceFirst` stops at the first occurrence: it is replaced, and what follows is kept as it is, later occurrences included. |
| JavaStrings.Split | src/DFD2GDPR.java:239 | The result is a prefix of all the fields; only empty fields are cut off after it; it never ends in an empty field; and an input without the separator comes back whole. |
| JavaStrings.JoinFields | src/DFD2GDPR.java:211 | The fields between separators, joined back with the separator, give the input: cutting loses nothing. |
| JavaStrings.FieldsConcat | src/DFD2GDPR.java:239 | A field free of the separator comes out whole in front of the fields of what follows it. |
| Labels.ParseToken | src/DFD2GDPR.java:238-242 | A token reads successfully exactly when `split(":")` yields at least three fields. The name and id are then the second and third fields. The type name is the first field with every "Impl" removed: taken as written when it holds no "Impl", and never longer. |
| Labels.TokenRoundTrip | src/DFD2GDPR.java:238-242 | A written `Type:Name:Id` token with colon-free fields, an "Impl"-free type and a non-empty id reads back as itself. |
| Labels.ImplTokenRoundTrip | src/DFD2GDPR.java:238-242 | A token written with the implementation class name `<Type>Impl` reads back with the plain type name, the same name and the same id. |
| Labels.ImplRemovedEverywhere | src/DFD2GDPR.java:238-242 | Every "Impl" in a token's type name is removed, not only a trailing one: the type name read is the text before the first "Impl" followed by the rest with every "Impl" removed. |
| Labels.DoubledImplRemoved | src/DFD2GDPR.java:240 | A type name ending in a doubled "Impl" loses both, so `DataImplImpl:x:d1` reads as a `Data` token. |
| Labels.EntityTokenSelectsKind | src/DFD2GDPR.java:238-283 | A token `<Class>Impl:<name>:<id>` or `<Class>:<name>:<id>` for any entity class reads as that class's name, and that name selects exactly that class. |
| Labels.ElementParts | src/DFD2GDPR.java:210-214 | An element label reads successfully exactly when, after the first "GDPR::" is removed, it splits at "::" into at least two fields. |
| Labels.ElementRoundTrip | src/DFD2GDPR.java:210-214 | A written `GDPR::<Role>::<Token>` label reads back as its role and token. |
| Labels.LinkParts | src/DFD2GDPR.java:175-176 | A label is read as a link exactly when, with every "GDPR::" removed, it splits at "::" into exactly three fields. |
| Labels.LinkRoundTrip | src/DFD2GDPR.java:175-180 | A written link label reads back as its first token, role and second token. |
| Labels.LinkOfTokensRoundTrip | src/DFD2GDPR.java:175-180 | The same for a link label written from two plain tokens with non-empty names and ids. |
| Labels.ElementLabelIsNoLink | src/DFD2GDPR.java:171-176 | An element label passes the link resolver's `GDPR::` filter but has two parts, so the link resolver skips it. |
| Labels.OfTypeNames | src/DFD2GDPR.java:133-136 | Every filtered name is the name of one of the labels and starts with "GDPR::ofType:", and every label name with that prefix is kept. There are never more names than labels. |
| Labels.OfTypeNamesConcat | src/DFD2GDPR.java:133-136 | Filtering keeps label order: the names for `a + b` are those for `a` followed by those for `b`. |
| Labels.FirstOfTypeLabel | src/DFD2GDPR.java:133-144 | The first `ofType` label in label order is the first filtered name. |
| Labels.OfTypeVariantOfName | src/DFD2GDPR.java:144 | Removing the prefix and every "Impl" from `GDPR::ofType:<Variant>` or `GDPR::ofType:<Variant>Impl` gives the variant's class name. |
| Registry.NewEntity | src/DFD2GDPR.java:246-290 | A new entity of the given class is appended to exactly the one collection its class belongs to; every other collection is unchanged. It carries the token's name and id and no references. A role also gets its display name. |
| Registry.ResolveEntity | src/DFD2GDPR.java:238-291 | A malformed token is an error. A known id returns the registered entity with nothing changed. For an unknown id, creation succeeds exactly when the type names an entity class. It then adds one entity of that class, with the token's name and id (a role also gets the name as its display name), and registers it under the id. |
| Registry.FirstSeenWins | src/DFD2GDPR.java:244 | A second token with the same id yields the entity the first created and changes nothing; the first token's class and name stay. |
| Registry.NewEntityKeepsFactsOk | src/DFD2GDPR.java:246-283 | Creating an entity keeps every stored reference well typed and only extends the facts. |
| Registry.NewEntityKeepsRegistered | src/DFD2GDPR.java:285-288 | Registering a new entity under a fresh id keeps the registry exact: each id maps to the entity carrying it, and each entity is registered. |
| Registry.ResolveEntityKeepsValid | src/DFD2GDPR.java:238-291 | Resolving a token keeps the invariants, only extends the facts, and yields an entity of the facts that carries the token's id. |
| Registry.RegisteredIdsUnique | src/DFD2GDPR.java:244-288 | No two registered entities share an id. |
| Resolvers.ProcessingKindOf | src/DFD2GDPR.java:132-160 | Without an `ofType` label: Store gives Storing, External gives Collecting, Process gives generic Processing. Otherwise the first `ofType` label decides. Its variant name after the prefix and every "Impl" are removed must name a variant, else the result is an error. |
| Resolvers.ExplicitKindWins | src/DFD2GDPR.java:144-159 | An `ofType` label naming a variant, with or without "Impl", decides the kind when no earlier label is an `ofType` label, whatever the node's structural kind. |
| Resolvers.Attach | src/DFD2GDPR.java:216-234 | An unknown role is an error, and a wrong entity class is a cast error. InputData, OutputData, LegalBasis and Purpose append the entity to their own list and leave the others alone. Responsible overwrites the single responsible role. |
| Resolvers.AttachKeepsOk | src/DFD2GDPR.java:216-234 | Attaching a well-typed entity keeps the processing activity's references well typed. |
| Resolvers.ApplyElement | src/DFD2GDPR.java:209-235 | A malformed element label is an error. A successful one only creates entities and grows the activity's lists, keeping the invariants. |
| Resolvers.ApplyElementSteps | src/DFD2GDPR.java:209-235 | An element label resolves its token to an entity first, found by id or newly created and then registered under the token's id. That entity is then attached to the activity in the label's role. The first error met is the result. |
| Resolvers.ResolveElements | src/DFD2GDPR.java:206-236 | Labels outside `GDPRElement` are ignored. A node without element labels changes nothing. Success keeps the invariants and only grows the activity's lists. |
| Resolvers.ResolveElementsConcat | src/DFD2GDPR.java:207-235 | Element labels are applied one after the other: resolving `a + b` is resolving `a`, then `b`. |
| Resolvers.ResponsibleLastWins | src/DFD2GDPR.java:229-231 | The last `Responsible` label of a node decides its responsible role, whatever earlier labels said. |
| Resolvers.Link | src/DFD2GDPR.java:182-200 | An unknown role is an error. The relation succeeds exactly when both casts hold. Consentee and ForData set a single reference; ContractParty, ForPurpose and Reference append. |
| Resolvers.LinkChangesOnlyFirst | src/DFD2GDPR.java:182-200 | A relation changes the references of its first entity and nothing else in the facts. |
| Resolvers.LinkKeepsFactsOk | src/DFD2GDPR.java:182-200 | The casts a relation passes are what its new reference needs, so the facts stay well typed. |
| Resolvers.Relate | src/DFD2GDPR.java:178-200 | Resolving both tokens and applying the relation keeps the invariants, only extends the facts and leaves the resolved set alone. |
| Resolvers.RelateSteps | src/DFD2GDPR.java:178-200 | The first token is resolved before the second, and both before the role is looked at; the first error met is the result. |
| Resolvers.ApplyLink | src/DFD2GDPR.java:173-202 | A label already resolved, or not made of three parts, changes nothing. One that is applied is added to the resolved set. |
| Resolvers.ApplyLinkSteps | src/DFD2GDPR.java:173-202 | An unresolved link label of three parts relates its first token to its second in its role. On success, the state is the related one with the label added to the resolved set; otherwise the relation's error is the result. |
| Resolvers.ResolveLinks | src/DFD2GDPR.java:169-204 | Applying a node's link labels keeps the invariants and only grows the facts and the resolved set. |
| Resolvers.ResolveLinksCovers | src/DFD2GDPR.java:169-204 | Afterwards every link label given is resolved, and every newly resolved label is one of them. |
| Resolvers.SettledLinks | src/DFD2GDPR.java:173 | When all link labels are already resolved, the link resolver changes nothing. |
| Resolvers.ResolveLinksOnce | src/DFD2GDPR.java:169-204 | Running the link resolver again over the same labels is a no-op. |
| Transformation.AppendProcessingKeepsValid | src/DFD2GDPR.java:91 | Appending a well-typed processing activity keeps the invariants. |
| Transformation.TransformNode | src/DFD2GDPR.java:81-92 | A node appends exactly one activity, made for it: the node's id, name and kind, no successors yet. Every label resolved before stays resolved. An unknown `ofType` name is an error. |
| Transformation.TransformNodeSteps | src/DFD2GDPR.java:82-91 | Kind first, then element labels, then link labels, then the append; the first error met is the result. |
| Transformation.TransformNodes | src/DFD2GDPR.java:81-92 | The node pass keeps the invariants and appends one activity per node. |
| Transformation.TransformNodesSettle | src/DFD2GDPR.java:81-92 | After the node pass, every label resolved before is still resolved, and so is every link label of every node passed. |
| Transformation.TransformNodesConcat | src/DFD2GDPR.java:81-92 | The node pass over `a + b` is the pass over `a`, then the pass over `b` from where it stopped. |
| Transformation.SharedLinkAppliedOnce | src/DFD2GDPR.java:169-204 | A link label shared by several nodes is applied at most once. Once the pass has gone over a node holding it, the label is resolved in the state the pass reaches at any later node, and the link resolver leaves that state unchanged for it. |
| Transformation.TransformNodesMade | src/DFD2GDPR.java:81-92 | The node pass appends the activities in node order, each made for its own node. |
| Transformation.NodeMapIdentity | src/DFD2GDPR.java:89 | The node map records exactly the diagram's nodes, each mapped to the activity at its own position. |
| Transformation.WireFlow | src/DFD2GDPR.java:162-167 | A flow succeeds exactly when both endpoints are mapped nodes; otherwise it is an error. |
| Transformation.WireFlows | src/DFD2GDPR.java:95 | Wiring succeeds exactly when every endpoint is mapped. Each activity then gets, appended to its successors, the destinations of its outgoing flows in flow order, duplicates kept. |
| Transformation.SuccessorsAreTargets | src/DFD2GDPR.java:162-167 | Through the node map, an activity's new successors are its node's flow targets. |
| Transformation.TraceSetSize | src/DFD2GDPR.java:105-110 | No two node-map entries give the same trace, so there are exactly as many traces as entries. |
| Transformation.Pruned | src/DFD2GDPR.java:113-119 | A label type survives exactly when its name is not GDPRElement, GDPRNode or GDPRLink. |
| Transformation.PrunedConcat | src/DFD2GDPR.java:113-119 | Pruning works part by part, so survivors keep their relative order. |
| Transformation.PrunedKeepsOthers | src/DFD2GDPR.java:113-119 | A dictionary without GDPR label types is left exactly as it is. |
| Transformation.Transform | src/DFD2GDPR.java:80-119 | If the node pass succeeds, a flow endpoint that is not a node is an error. A successful run has all flows closed and the pruned dictionary. |
| Transformation.TransformCases | src/DFD2GDPR.java:80-119 | A run fails with the node pass's error, or with a dangling flow, or yields the facts with the flows wired, the flow elements, the traces and the pruned dictionary. |
| Transformation.OneProcessingPerNode | src/DFD2GDPR.java:81-92 | Every node yields exactly one activity, at its own position, with the node's id and name and the variant its labels or kind select. |
| Transformation.FollowingMatchesFlows | src/DFD2GDPR.java:162-167 | Each activity's successors are the activities of the nodes its node's flows lead to, in flow order, duplicates kept. |
| Transformation.FlowElementPerFlow | src/DFD2GDPR.java:97-103 | Every flow has one flow element, whose source and destination ids are those of the activities the flow connects. |
| Transformation.OneTracePerNode | src/DFD2GDPR.java:105-110 | Every node has exactly one trace, to the activity made for it, which carries the node's id. |
| Transformation.OutputWellFormed | src/DFD2GDPR.java:80-119 | The output facts are well typed, successors included, and no two of their entities share an id. |
| Transformation.DictionaryPruned | src/DFD2GDPR.java:113-119 | After a run no GDPR label type remains, every other one does, and the survivors keep their order. |
| Engine.LegalAssessmentFacts.constructor | src/DFD2GDPR.java:67 | The facts start empty. |
| Engine.Dfd2Gdpr.constructor | src/DFD2GDPR.java:45-48 | A new engine holds the diagram and dictionary, empty facts, an empty trace model and empty tables. |
| Engine.Dfd2Gdpr.ResolveAndCreateElementType | src/DFD2GDPR.java:238-291 | The method ends in the state `Registry.ResolveEntity` computes and returns its entity, or returns its error with nothing changed. |
| Engine.Dfd2Gdpr.ResolveOneElementLabel | src/DFD2GDPR.java:209-235 | One element label, as `Resolvers.ApplyElement` computes it. |
| Engine.Dfd2Gdpr.ResolveElementLabel | src/DFD2GDPR.java:206-236 | The label loop ends in the state and activity `Resolvers.ResolveElements` computes, or returns its error. |
| Engine.Dfd2Gdpr.SetReference | src/DFD2GDPR.java:182-200 | The facts become what `Resolvers.Link` computes, or are unchanged on its error. |
| Engine.Dfd2Gdpr.RelateTokens | src/DFD2GDPR.java:178-200 | The state becomes what `Resolvers.Relate` computes, or the method returns its error. |
| Engine.Dfd2Gdpr.ResolveOneLinkLabel | src/DFD2GDPR.java:172-203 | One link label, as `Resolvers.ApplyLink` computes it. |
| Engine.Dfd2Gdpr.ResolveLinkLabel | src/DFD2GDPR.java:169-204 | The label loop ends in the state `Resolvers.ResolveLinks` computes, or returns its error. |
| Engine.Dfd2Gdpr.TransformNodeAt | src/DFD2GDPR.java:81-92 | One node, as `Transformation.TransformNode` computes it. The node map records the node at the new activity's position. |
| Engine.Dfd2Gdpr.NextNode | src/DFD2GDPR.java:81-92 | One turn of the node loop: the rest of the node pass after this node is the node pass over the nodes after it. |
| Engine.Dfd2Gdpr.TransformNodes | src/DFD2GDPR.java:81-92 | The node loop ends in the state `Transformation.TransformNodes` computes, with every node mapped to its activity, or returns its error. |
| Engine.Dfd2Gdpr.TransformFlow | src/DFD2GDPR.java:162-167 | One flow, as `Transformation.WireFlow` computes it. |
| Engine.Dfd2Gdpr.TransformFlows | src/DFD2GDPR.java:95 | The flow loop ends with the activities `Transformation.WireFlows` computes, or returns its error. |
| Engine.Dfd2Gdpr.RecordFlowElements | src/DFD2GDPR.java:97-103 | The flow list becomes `Transformation.FlowElements`. |
| Engine.Dfd2Gdpr.RecordTraces | src/DFD2GDPR.java:105-110 | The traces list holds exactly the traces of the node map, one per node, in whatever order the map's entries are taken. |
| Engine.Dfd2Gdpr.PruneDictionary | src/DFD2GDPR.java:113-119 | The GDPR label types are collected, then all removed, and the dictionary becomes `Transformation.Pruned` of what it was. |
| Engine.Dfd2Gdpr.RecordTraceModelAndPrune | src/DFD2GDPR.java:97-119 | The flow elements, the traces and the pruned dictionary, one after the other. |
| Engine.Dfd2Gdpr.Transform | src/DFD2GDPR.java:80-119 | A run ends with the facts, flow list, traces (as a set, one per node) and dictionary `Transformation.Transform` computes, or returns its error. |

## Left out

- Loading and saving models are file I/O through the EMF library and are not modelled. This covers the constructor's resource loading (`src/DFD2GDPR.java:57-78`), `createAndAddResource`, `saveResource`, and the saves at the end of `transform` (`src/DFD2GDPR.java:121-129`). The diagram and dictionary are passed to the constructor already loaded.
- The EMF factories and metamodel classes are replaced by datatypes. `Class.getSimpleName()` is replaced by the class names as string literals. `label.eContainer()` is replaced by the label type's name stored on each label.
- Java exceptions are not modelled as exceptions. The `IllegalArgumentException`s, the `ClassCastException`s of the casts, the `ArrayIndexOutOfBoundsException` of a short token or element label, and the `NullPointerException` of an unmapped flow endpoint all become `TransformError` values that end the run.
- State after an error: the engine's methods state only the error they return, not the partial state left behind. For example, an entity stays registered when a later cast fails.
- Engine.Dfd2Gdpr.Transform: requires a freshly constructed engine. A second call on the same engine is not modelled.
- Engine.Dfd2Gdpr.RecordTraces: states the traces list as a set with one trace per node, not its order, because Java's `HashMap` iteration order is unspecified.
- Many-valued references are modelled as lists that keep duplicates (`following`, the processing activity's lists, `contractingParty`, `forPurpose`, `dataReferences`). Whether the metamodel declares them unique is not part of this model.
- Nodes are identified by position. The same node object listed twice in a diagram is not modelled. A flow endpoint outside the node list stands for a node the map does not know.
- The processing activity under construction is passed as a value through the element resolver. In Java it is an object that is not yet reachable from the facts, so no aliasing is lost.
- Null values are not modelled: null names, null label texts or a node of a fourth structural kind without an `ofType` label.
