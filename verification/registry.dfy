/** The entity registry: every entity a label names is created once, on the
    first token that carries its id, appended to the one collection of the
    facts its class belongs to, and found by id ever after.

    This module also states the invariants the whole transformation keeps:
    every reference stored in the facts points at an entity of the class its
    cast demands (FactsOk), entities are never removed nor change class, name
    or id (Extends), and the registry knows exactly the registered entities,
    each by its own id (Registered), so no two of them share an id. */
module Registry {
  import opened Model
  import opened Labels

  /** A registered entity: the collection it lives in and its position there. */
  datatype EntityRef = LegalBasisRef(i: nat) | DataRef(i: nat) | PurposeRef(i: nat) | RoleRef(i: nat)

  /** The engine's state while it resolves labels: the facts built so far,
      the registry of entities by id, and the identities of the link labels
      already applied. */
  datatype Ctx = Ctx(laf: Facts, ids: map<string, EntityRef>, resolved: set<LabelKey>)

  const EmptyCtx := Ctx(EmptyFacts, map[], {})

  // ---------------------------------------------------------------------
  // Looking entities up
  // ---------------------------------------------------------------------

  predicate RefOk(f: Facts, r: EntityRef) {
    match r
    case LegalBasisRef(i) => i < |f.legalBases|
    case DataRef(i) => i < |f.data|
    case PurposeRef(i) => i < |f.purposes|
    case RoleRef(i) => i < |f.involvedParties|
  }

  function IdOf(f: Facts, r: EntityRef): string
    requires RefOk(f, r)
  {
    match r
    case LegalBasisRef(i) => f.legalBases[i].id
    case DataRef(i) => f.data[i].id
    case PurposeRef(i) => f.purposes[i].id
    case RoleRef(i) => f.involvedParties[i].id
  }

  function NameOf(f: Facts, r: EntityRef): string
    requires RefOk(f, r)
  {
    match r
    case LegalBasisRef(i) => f.legalBases[i].entityName
    case DataRef(i) => f.data[i].entityName
    case PurposeRef(i) => f.purposes[i].entityName
    case RoleRef(i) => f.involvedParties[i].entityName
  }

  function KindOf(f: Facts, r: EntityRef): EntityKind
    requires RefOk(f, r)
  {
    match r
    case LegalBasisRef(i) => LegalBasisEntity(f.legalBases[i].kind)
    case DataRef(i) => DataEntity(f.data[i].kind)
    case PurposeRef(i) => PurposeEntity
    case RoleRef(i) => RoleEntity(f.involvedParties[i].kind)
  }

  // ---------------------------------------------------------------------
  // The invariants
  // ---------------------------------------------------------------------

  predicate IsData(f: Facts, j: nat) { j < |f.data| }
  predicate IsPersonalData(f: Facts, j: nat) { j < |f.data| && f.data[j].kind == PersonalData }
  predicate IsLegalBasis(f: Facts, j: nat) { j < |f.legalBases| }
  predicate IsPurpose(f: Facts, j: nat) { j < |f.purposes| }
  predicate IsRole(f: Facts, j: nat) { j < |f.involvedParties| }
  predicate IsNaturalPerson(f: Facts, j: nat) {
    j < |f.involvedParties| && f.involvedParties[j].kind == NaturalPerson
  }

  /** Every reference of a processing activity points at an entity of the right class. */
  predicate ProcessingOk(f: Facts, p: Processing) {
    && (forall j :: j in p.inputData ==> IsData(f, j))
    && (forall j :: j in p.outputData ==> IsData(f, j))
    && (forall j :: j in p.onTheBasisOf ==> IsLegalBasis(f, j))
    && (forall j :: j in p.purpose ==> IsPurpose(f, j))
    && (p.responsible.Some? ==> IsRole(f, p.responsible.value))
    && (forall j :: j in p.following ==> j < |f.processing|)
  }

  /** A consentee only on a Consent, and a natural person; contracting
      parties only on a PerformanceOfContract; personal data really personal. */
  predicate LegalBasisOk(f: Facts, b: LegalBasis) {
    && (b.consentee.Some? ==> b.kind == Consent && IsNaturalPerson(f, b.consentee.value))
    && (b.contractingParty != [] ==> b.kind == PerformanceOfContract)
    && (forall j :: j in b.contractingParty ==> IsRole(f, j))
    && (forall j :: j in b.forPurpose ==> IsPurpose(f, j))
    && (b.personalData.Some? ==> IsPersonalData(f, b.personalData.value))
  }

  /** Data references only on personal data, and to natural persons. */
  predicate DataOk(f: Facts, d: Data) {
    && (d.dataReferences != [] ==> d.kind == PersonalData)
    && (forall j :: j in d.dataReferences ==> IsNaturalPerson(f, j))
  }

  /** Every reference stored in the facts is well typed. */
  predicate FactsOk(f: Facts) {
    && (forall i :: 0 <= i < |f.processing| ==> ProcessingOk(f, f.processing[i]))
    && (forall i :: 0 <= i < |f.legalBases| ==> LegalBasisOk(f, f.legalBases[i]))
    && (forall i :: 0 <= i < |f.data| ==> DataOk(f, f.data[i]))
  }

  /** The registry maps each id to the entity carrying it, and every entity
      of the four registered collections is in the registry under its id. */
  predicate Registered(c: Ctx) {
    && (forall id :: id in c.ids ==> RefOk(c.laf, c.ids[id]) && IdOf(c.laf, c.ids[id]) == id)
    && (forall i :: 0 <= i < |c.laf.legalBases| ==>
          c.laf.legalBases[i].id in c.ids && c.ids[c.laf.legalBases[i].id] == LegalBasisRef(i))
    && (forall i :: 0 <= i < |c.laf.data| ==>
          c.laf.data[i].id in c.ids && c.ids[c.laf.data[i].id] == DataRef(i))
    && (forall i :: 0 <= i < |c.laf.purposes| ==>
          c.laf.purposes[i].id in c.ids && c.ids[c.laf.purposes[i].id] == PurposeRef(i))
    && (forall i :: 0 <= i < |c.laf.involvedParties| ==>
          c.laf.involvedParties[i].id in c.ids && c.ids[c.laf.involvedParties[i].id] == RoleRef(i))
  }

  predicate Valid(c: Ctx) {
    FactsOk(c.laf) && Registered(c)
  }

  predicate SameProcessing(a: Processing, b: Processing) {
    a.kind == b.kind && a.entityName == b.entityName && a.id == b.id
  }
  predicate SameBasis(a: LegalBasis, b: LegalBasis) {
    a.kind == b.kind && a.entityName == b.entityName && a.id == b.id
  }
  predicate SameData(a: Data, b: Data) {
    a.kind == b.kind && a.entityName == b.entityName && a.id == b.id
  }
  predicate SameRole(a: Role, b: Role) {
    a.kind == b.kind && a.name == b.name && a.entityName == b.entityName && a.id == b.id
  }

  /** `f'` grew from `f`: nothing removed, and every entity kept its class,
      name and id (only its references may have grown). */
  predicate Extends(f: Facts, f': Facts) {
    && |f.processing| <= |f'.processing|
    && (forall i :: 0 <= i < |f.processing| ==> SameProcessing(f.processing[i], f'.processing[i]))
    && |f.legalBases| <= |f'.legalBases|
    && (forall i :: 0 <= i < |f.legalBases| ==> SameBasis(f.legalBases[i], f'.legalBases[i]))
    && |f.data| <= |f'.data|
    && (forall i :: 0 <= i < |f.data| ==> SameData(f.data[i], f'.data[i]))
    && |f.purposes| <= |f'.purposes|
    && (forall i :: 0 <= i < |f.purposes| ==> f.purposes[i] == f'.purposes[i])
    && |f.involvedParties| <= |f'.involvedParties|
    && (forall i :: 0 <= i < |f.involvedParties| ==> SameRole(f.involvedParties[i], f'.involvedParties[i]))
  }

  lemma ExtendsTransitive(f: Facts, g: Facts, h: Facts)
    requires Extends(f, g) && Extends(g, h)
    ensures Extends(f, h)
  {
  }

  lemma ProcessingOkGrows(f: Facts, f': Facts, p: Processing)
    requires Extends(f, f') && ProcessingOk(f, p)
    ensures ProcessingOk(f', p)
  {
  }

  lemma LegalBasisOkGrows(f: Facts, f': Facts, b: LegalBasis)
    requires Extends(f, f') && LegalBasisOk(f, b)
    ensures LegalBasisOk(f', b)
  {
    if b.consentee.Some? {
      assert f.involvedParties[b.consentee.value].kind == f'.involvedParties[b.consentee.value].kind;
    }
    if b.personalData.Some? {
      assert f.data[b.personalData.value].kind == f'.data[b.personalData.value].kind;
    }
  }

  lemma DataOkGrows(f: Facts, f': Facts, d: Data)
    requires Extends(f, f') && DataOk(f, d)
    ensures DataOk(f', d)
  {
    forall j | j in d.dataReferences
      ensures IsNaturalPerson(f', j)
    {
      assert f.involvedParties[j].kind == f'.involvedParties[j].kind;
    }
  }

  /** A reference into facts that grew still points at the same entity. */
  lemma RefOkGrows(f: Facts, f': Facts, e: EntityRef)
    requires Extends(f, f') && RefOk(f, e)
    ensures RefOk(f', e)
    ensures KindOf(f', e) == KindOf(f, e) && IdOf(f', e) == IdOf(f, e) && NameOf(f', e) == NameOf(f, e)
  {
  }

  /** Changing the references of existing entities, and nothing else, keeps
      the registry exact. */
  lemma RegisteredAfterRelink(c: Ctx, f': Facts)
    requires Registered(c) && Extends(c.laf, f')
    requires |f'.legalBases| == |c.laf.legalBases| && |f'.data| == |c.laf.data|
    requires |f'.purposes| == |c.laf.purposes| && |f'.involvedParties| == |c.laf.involvedParties|
    ensures Registered(c.(laf := f'))
  {
    forall x | x in c.ids ensures RefOk(f', c.ids[x]) && IdOf(f', c.ids[x]) == x {
      RefOkGrows(c.laf, f', c.ids[x]);
    }
  }

  /** No two registered entities share an id. */
  lemma {:induction false} RegisteredIdsUnique(c: Ctx, a: EntityRef, b: EntityRef)
    requires Registered(c) && RefOk(c.laf, a) && RefOk(c.laf, b)
    requires IdOf(c.laf, a) == IdOf(c.laf, b)
    ensures a == b
  {
    assert c.ids[IdOf(c.laf, a)] == a by {
      match a
      case LegalBasisRef(i) =>
      case DataRef(i) =>
      case PurposeRef(i) =>
      case RoleRef(i) =>
    }
    assert c.ids[IdOf(c.laf, b)] == b by {
      match b
      case LegalBasisRef(i) =>
      case DataRef(i) =>
      case PurposeRef(i) =>
      case RoleRef(i) =>
    }
  }

  // ---------------------------------------------------------------------
  // Creating and resolving entities
  // ---------------------------------------------------------------------

  /** Exactly one entity was appended, at `r`, to the one collection `r`
      points into; every other collection is unchanged. */
  predicate AddedOne(f: Facts, f': Facts, r: EntityRef) {
    && f'.processing == f.processing
    && (if r.LegalBasisRef?
        then r.i == |f.legalBases| && |f'.legalBases| == r.i + 1 && f'.legalBases[..r.i] == f.legalBases
        else f'.legalBases == f.legalBases)
    && (if r.DataRef?
        then r.i == |f.data| && |f'.data| == r.i + 1 && f'.data[..r.i] == f.data
        else f'.data == f.data)
    && (if r.PurposeRef?
        then r.i == |f.purposes| && |f'.purposes| == r.i + 1 && f'.purposes[..r.i] == f.purposes
        else f'.purposes == f.purposes)
    && (if r.RoleRef?
        then r.i == |f.involvedParties| && |f'.involvedParties| == r.i + 1
             && f'.involvedParties[..r.i] == f.involvedParties
        else f'.involvedParties == f.involvedParties)
  }

  /** A new entity carries no references yet. */
  predicate Unlinked(f: Facts, r: EntityRef)
    requires RefOk(f, r)
  {
    match r
    case LegalBasisRef(i) =>
      f.legalBases[i].consentee.None? && f.legalBases[i].contractingParty == []
      && f.legalBases[i].forPurpose == [] && f.legalBases[i].personalData.None?
    case DataRef(i) => f.data[i].dataReferences == []
    case PurposeRef(_) => true
    case RoleRef(_) => true
  }

  /** Creates the entity of class `kind` and appends it to the collection
      its class belongs to: legal bases, data, purposes or involved parties.
      A role also gets its display name. */
  function NewEntity(f: Facts, kind: EntityKind, name: string, id: string): (r: (Facts, EntityRef))
    ensures AddedOne(f, r.0, r.1)
    ensures RefOk(r.0, r.1) && KindOf(r.0, r.1) == kind && NameOf(r.0, r.1) == name && IdOf(r.0, r.1) == id
    ensures Unlinked(r.0, r.1)
    ensures r.1.RoleRef? ==> r.0.involvedParties[r.1.i].name == name
  {
    match kind
    case LegalBasisEntity(k) =>
      (f.(legalBases := f.legalBases + [LegalBasis(k, name, id, None, [], [], None)]), LegalBasisRef(|f.legalBases|))
    case DataEntity(k) =>
      (f.(data := f.data + [Data(k, name, id, [])]), DataRef(|f.data|))
    case PurposeEntity =>
      (f.(purposes := f.purposes + [Purpose(name, id)]), PurposeRef(|f.purposes|))
    case RoleEntity(k) =>
      (f.(involvedParties := f.involvedParties + [Role(k, name, name, id)]), RoleRef(|f.involvedParties|))
  }

  /** The entity a `Type:Name:Id` token names: the registered one if its id
      is known (class and name in the token are then ignored), otherwise a new
      one of the named class, which is registered under the id. */
  function ResolveEntity(c: Ctx, token: string): (r: Result<(Ctx, EntityRef)>)
    ensures ParseToken(token).Err? ==> r == Err(MalformedLabel)
    ensures ParseToken(token).Ok? && ParseToken(token).value.id in c.ids ==>
              r == Ok((c, c.ids[ParseToken(token).value.id]))
    ensures ParseToken(token).Ok? && ParseToken(token).value.id !in c.ids ==>
              (r.Ok? <==> EntityKindNamed(ParseToken(token).value.typeName).Some?)
    ensures r.Ok? && ParseToken(token).value.id !in c.ids ==>
              var t, c', e := ParseToken(token).value, r.value.0, r.value.1;
              && AddedOne(c.laf, c'.laf, e) && Unlinked(c'.laf, e)
              && KindOf(c'.laf, e) == EntityKindNamed(t.typeName).value
              && NameOf(c'.laf, e) == t.name && IdOf(c'.laf, e) == t.id
              && (e.RoleRef? ==> c'.laf.involvedParties[e.i].name == t.name)
              && c'.ids == c.ids[t.id := e]
    ensures r.Ok? ==> && r.value.0.ids[ParseToken(token).value.id] == r.value.1
                      && r.value.0.resolved == c.resolved
                      && r.value.0.laf.processing == c.laf.processing
                      && c.ids.Keys <= r.value.0.ids.Keys
  {
    match ParseToken(token)
    case Err(e) => Err(e)
    case Ok(t) =>
      if t.id in c.ids then Ok((c, c.ids[t.id]))
      else match EntityKindNamed(t.typeName)
        case None => Err(UnknownEntityType)
        case Some(kind) =>
          var (f, e) := NewEntity(c.laf, kind, t.name, t.id);
          Ok((c.(laf := f, ids := c.ids[t.id := e]), e))
  }

  /** A token with a fresh id and a known class creates and registers one entity. */
  lemma ResolveEntityCreates(c: Ctx, token: string)
    requires ParseToken(token).Ok? && ParseToken(token).value.id !in c.ids
    requires EntityKindNamed(ParseToken(token).value.typeName).Some?
    ensures var t := ParseToken(token).value;
            var x := NewEntity(c.laf, EntityKindNamed(t.typeName).value, t.name, t.id);
            ResolveEntity(c, token) == Ok((c.(laf := x.0, ids := c.ids[t.id := x.1]), x.1))
  {
  }

  /** Two tokens with the same id name the same entity; the first one seen
      decides its class and name, and the second changes nothing. */
  lemma FirstSeenWins(c: Ctx, first: string, second: string)
    requires ResolveEntity(c, first).Ok?
    requires ParseToken(second).Ok? && ParseToken(second).value.id == ParseToken(first).value.id
    ensures var (c1, e) := ResolveEntity(c, first).value;
            ResolveEntity(c1, second) == Ok((c1, e))
  {
  }

  /** Creating an entity keeps every stored reference well typed. */
  lemma NewEntityKeepsFactsOk(f: Facts, kind: EntityKind, name: string, id: string)
    requires FactsOk(f)
    ensures Extends(f, NewEntity(f, kind, name, id).0)
    ensures FactsOk(NewEntity(f, kind, name, id).0)
  {
    var f' := NewEntity(f, kind, name, id).0;
    assert Extends(f, f');
    forall i | 0 <= i < |f'.processing| ensures ProcessingOk(f', f'.processing[i]) {
      ProcessingOkGrows(f, f', f'.processing[i]);
    }
    forall i | 0 <= i < |f'.legalBases| ensures LegalBasisOk(f', f'.legalBases[i]) {
      if i < |f.legalBases| {
        assert f'.legalBases[i] == f.legalBases[i];
        LegalBasisOkGrows(f, f', f.legalBases[i]);
      }
    }
    forall i | 0 <= i < |f'.data| ensures DataOk(f', f'.data[i]) {
      if i < |f.data| {
        assert f'.data[i] == f.data[i];
        DataOkGrows(f, f', f.data[i]);
      }
    }
  }

  /** Creating an entity under a fresh id keeps the registry exact. */
  lemma NewEntityKeepsRegistered(c: Ctx, kind: EntityKind, name: string, id: string)
    requires Registered(c) && id !in c.ids
    ensures var (f, e) := NewEntity(c.laf, kind, name, id);
            Registered(Ctx(f, c.ids[id := e], c.resolved))
  {
    var (f, e) := NewEntity(c.laf, kind, name, id);
    var ids := c.ids[id := e];
    forall x | x in ids ensures RefOk(f, ids[x]) && IdOf(f, ids[x]) == x {
      if x != id {
        var r := c.ids[x];
        assert RefOk(c.laf, r) && IdOf(c.laf, r) == x;
        match r
        case LegalBasisRef(i) => assert f.legalBases[i] == c.laf.legalBases[i];
        case DataRef(i) => assert f.data[i] == c.laf.data[i];
        case PurposeRef(i) => assert f.purposes[i] == c.laf.purposes[i];
        case RoleRef(i) => assert f.involvedParties[i] == c.laf.involvedParties[i];
      }
    }
    forall i | 0 <= i < |f.legalBases|
      ensures f.legalBases[i].id in ids && ids[f.legalBases[i].id] == LegalBasisRef(i)
    {
      if i < |c.laf.legalBases| { assert f.legalBases[i] == c.laf.legalBases[i]; }
    }
    forall i | 0 <= i < |f.data|
      ensures f.data[i].id in ids && ids[f.data[i].id] == DataRef(i)
    {
      if i < |c.laf.data| { assert f.data[i] == c.laf.data[i]; }
    }
    forall i | 0 <= i < |f.purposes|
      ensures f.purposes[i].id in ids && ids[f.purposes[i].id] == PurposeRef(i)
    {
      if i < |c.laf.purposes| { assert f.purposes[i] == c.laf.purposes[i]; }
    }
    forall i | 0 <= i < |f.involvedParties|
      ensures f.involvedParties[i].id in ids && ids[f.involvedParties[i].id] == RoleRef(i)
    {
      if i < |c.laf.involvedParties| { assert f.involvedParties[i] == c.laf.involvedParties[i]; }
    }
  }

  /** Resolving a token keeps the invariants and yields an entity of the facts
      that carries the token's id. */
  lemma ResolveEntityKeepsValid(c: Ctx, token: string)
    requires Valid(c) && ResolveEntity(c, token).Ok?
    ensures var (c', e) := ResolveEntity(c, token).value;
            && Valid(c') && Extends(c.laf, c'.laf) && c'.resolved == c.resolved
            && RefOk(c'.laf, e) && IdOf(c'.laf, e) == ParseToken(token).value.id
  {
    var t := ParseToken(token).value;
    if t.id !in c.ids {
      NewEntityKeepsFactsOk(c.laf, EntityKindNamed(t.typeName).value, t.name, t.id);
      NewEntityKeepsRegistered(c, EntityKindNamed(t.typeName).value, t.name, t.id);
    }
  }
}
