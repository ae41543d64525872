/** The label grammar: how the transformation reads the text of a label.
    - `GDPR::ofType:<Type>` selects a Processing variant;
    - `GDPR::<Role>::<Token>` attaches an entity to a processing activity;
    - `GDPR::<Token>::<Role>::<Token>` relates two entities;
    - a token is `<Type>:<Name>:<Id>`. */
module Labels {
  import opened JavaStrings
  import opened Model

  const GdprPrefix: string := "GDPR::"
  const OfTypePrefix: string := "GDPR::ofType:"
  const ImplMarker: string := "Impl"
  const LabelSeparator: string := "::"
  const TokenSeparator: string := ":"

  /** The label type whose labels are element labels. */
  const ElementLabelType: string := "GDPRElement"

  datatype Token = Token(typeName: string, name: string, id: string)

  /** Reads a `Type:Name:Id` token: the first three ':'-separated fields, with
      every "Impl" removed from the type name. Fewer than three fields, once
      trailing empty fields are dropped, is an error; fields past the third
      are ignored. */
  function ParseToken(s: string): (r: Result<Token>)
    ensures r.Ok? <==> |Split(s, TokenSeparator)| >= 3
    ensures r.Ok? ==> r.value.name == Split(s, TokenSeparator)[1] && r.value.id == Split(s, TokenSeparator)[2]
    ensures r.Ok? ==> r.value.typeName == ReplaceAll(Split(s, TokenSeparator)[0], ImplMarker, "")
    ensures r.Ok? && !Occurs(Split(s, TokenSeparator)[0], ImplMarker) ==> r.value.typeName == Split(s, TokenSeparator)[0]
    ensures r.Ok? ==> |r.value.typeName| <= |Split(s, TokenSeparator)[0]|
  {
    var fs := Split(s, TokenSeparator);
    if |fs| < 3 then Err(MalformedLabel)
    else Ok(Token(ReplaceAll(fs[0], ImplMarker, ""), fs[1], fs[2]))
  }

  /** The text of a token, as a label author writes it. */
  function FormatToken(t: Token): string {
    t.typeName + TokenSeparator + t.name + TokenSeparator + t.id
  }

  /** A token whose fields are free of ':' and whose type name holds no "Impl". */
  predicate PlainToken(t: Token) {
    ':' !in t.typeName && ':' !in t.name && ':' !in t.id && !Occurs(t.typeName, ImplMarker)
  }

  lemma {:induction false} NoOccurrenceWithoutFirstChar(a: string, d: string)
    requires d != [] && d[0] !in a
    ensures !Occurs(a, d)
    decreases |a|
  {
    if a != [] {
      NoOccurrenceWithoutFirstChar(a[1..], d);
      assert a[0] in a;
    }
  }

  /** A string that is a single field by itself. */
  lemma FieldsOfPlain(a: string, d: string)
    requires d != [] && d[0] !in a
    ensures Fields(a, d) == [a]
  {
    NoOccurrenceWithoutFirstChar(a, d);
  }

  /** Java's split keeps every field when the last one is not empty. */
  lemma SplitKeepsFields(s: string, d: string, fs: seq<string>)
    requires d != [] && Fields(s, d) == fs && fs[|fs| - 1] != []
    ensures Split(s, d) == fs
  {
  }

  /** Three fields free of the separator, written with the separator between them. */
  lemma FieldsOfThree(a: string, b: string, c: string, d: string)
    requires d != [] && Clean(a, d) && Clean(b, d) && !Occurs(c, d)
    ensures Fields(a + d + b + d + c, d) == [a, b, c]
  {
    var bc := b + d + c;
    assert a + d + b + d + c == a + d + bc;
    assert Fields(c, d) == [c];
    FieldsConcat(b, d, c);
    FieldsConcat(a, d, bc);
  }

  /** Reading a written token gives the token back (a non-empty id survives
      Java's dropping of trailing empty fields). */
  lemma TokenRoundTrip(t: Token)
    requires PlainToken(t) && t.id != []
    ensures ParseToken(FormatToken(t)) == Ok(t)
  {
    CleanWithoutSeparatorChar(t.typeName, TokenSeparator);
    CleanWithoutSeparatorChar(t.name, TokenSeparator);
    NoOccurrenceWithoutFirstChar(t.id, TokenSeparator);
    FieldsOfThree(t.typeName, t.name, t.id, TokenSeparator);
    SplitKeepsFields(FormatToken(t), TokenSeparator, [t.typeName, t.name, t.id]);
  }

  /** A token written with the implementation class name (`<Type>Impl`)
      reads as the token of the type itself. */
  lemma ImplTokenRoundTrip(t: Token)
    requires ':' !in t.typeName && ':' !in t.name && ':' !in t.id && t.id != []
    requires 'I' !in t.typeName
    ensures ParseToken(FormatToken(t.(typeName := t.typeName + ImplMarker))) == Ok(t)
  {
    var u := t.(typeName := t.typeName + ImplMarker);
    assert ':' !in u.typeName;
    CleanWithoutSeparatorChar(u.typeName, TokenSeparator);
    CleanWithoutSeparatorChar(t.name, TokenSeparator);
    NoOccurrenceWithoutFirstChar(t.id, TokenSeparator);
    FieldsOfThree(u.typeName, t.name, t.id, TokenSeparator);
    SplitKeepsFields(FormatToken(u), TokenSeparator, [u.typeName, t.name, t.id]);
    CleanWithoutSeparatorChar(t.typeName, ImplMarker);
    RemoveTrailingPattern(t.typeName, ImplMarker);
  }

  /** Three colon-free fields, the last non-empty, written with ':' between
      them split back into those fields. */
  lemma ThreeFields(a: string, b: string, c: string)
    requires ':' !in a && ':' !in b && ':' !in c && c != []
    ensures Split(a + TokenSeparator + b + TokenSeparator + c, TokenSeparator) == [a, b, c]
  {
    CleanWithoutSeparatorChar(a, TokenSeparator);
    CleanWithoutSeparatorChar(b, TokenSeparator);
    NoOccurrenceWithoutFirstChar(c, TokenSeparator);
    FieldsOfThree(a, b, c, TokenSeparator);
    SplitKeepsFields(a + TokenSeparator + b + TokenSeparator + c, TokenSeparator, [a, b, c]);
  }

  /** Every "Impl" goes from a token's type name, not only a trailing one:
      an "Impl" after a clean start is removed, and so is every "Impl" in
      what follows it. */
  lemma ImplRemovedEverywhere(a: string, b: string, name: string, id: string)
    requires ':' !in a && ':' !in b && ':' !in name && ':' !in id && id != []
    requires 'I' !in a
    ensures ParseToken(a + ImplMarker + b + TokenSeparator + name + TokenSeparator + id)
              == Ok(Token(a + ReplaceAll(b, ImplMarker, ""), name, id))
  {
    var tn := a + ImplMarker + b;
    assert ':' !in tn;
    ImplRemovedFrom(a, b);
    ThreeFields(tn, name, id);
    ParseThreeFields(tn + TokenSeparator + name + TokenSeparator + id, [tn, name, id]);
  }

  lemma ImplRemovedFrom(a: string, b: string)
    requires 'I' !in a
    ensures ReplaceAll(a + ImplMarker + b, ImplMarker, "") == a + ReplaceAll(b, ImplMarker, "")
  {
    CleanWithoutSeparatorChar(a, ImplMarker);
    ReplaceAllThrough(a, ImplMarker, b, "");
  }

  lemma ParseThreeFields(s: string, fs: seq<string>)
    requires Split(s, TokenSeparator) == fs && |fs| == 3
    ensures ParseToken(s) == Ok(Token(ReplaceAll(fs[0], ImplMarker, ""), fs[1], fs[2]))
  {
  }

  /** A type name with a doubled "Impl" loses both. */
  lemma DoubledImplRemoved(a: string, name: string, id: string)
    requires ':' !in a && ':' !in name && ':' !in id && id != []
    requires 'I' !in a
    ensures ParseToken(a + ImplMarker + ImplMarker + TokenSeparator + name + TokenSeparator + id)
              == Ok(Token(a, name, id))
  {
    ImplRemovedEverywhere(a, ImplMarker, name, id);
    ReplaceAllAtStart(ImplMarker, "", "");
    assert ImplMarker + "" == ImplMarker;
    assert ReplaceAll(ImplMarker, ImplMarker, "") == [];
    assert a + [] == a;
  }

  /** A token naming an entity class, with or without its "Impl" suffix,
      selects that class. */
  lemma EntityTokenSelectsKind(k: EntityKind, name: string, id: string)
    requires ':' !in name && ':' !in id && id != []
    ensures ParseToken(EntityKindName(k) + ImplMarker + TokenSeparator + name + TokenSeparator + id)
              == Ok(Token(EntityKindName(k), name, id))
    ensures ParseToken(EntityKindName(k) + TokenSeparator + name + TokenSeparator + id)
              == Ok(Token(EntityKindName(k), name, id))
    ensures EntityKindNamed(EntityKindName(k)) == Some(k)
  {
    var n := EntityKindName(k);
    EntityKindNameIsPlain(k);
    ImplTokenRoundTrip(Token(n, name, id));
    NoOccurrenceWithoutFirstChar(n, ImplMarker);
    TokenRoundTrip(Token(n, name, id));
  }

  /** No entity class name holds a ':' or an 'I'. */
  lemma EntityKindNameIsPlain(k: EntityKind)
    ensures ':' !in EntityKindName(k) && 'I' !in EntityKindName(k)
  {
    match k
    case LegalBasisEntity(b) => LegalBasisNameIsPlain(b);
    case DataEntity(_) =>
    case PurposeEntity =>
    case RoleEntity(r) => RoleNameIsPlain(r);
  }

  lemma LegalBasisNameIsPlain(b: LegalBasisKind)
    ensures ':' !in EntityKindName(LegalBasisEntity(b)) && 'I' !in EntityKindName(LegalBasisEntity(b))
  {
    match b
    case Consent =>
    case PerformanceOfContract => LettersWithoutI("PerformanceOfContract");
    case Obligation =>
    case ExerciceOfPublicAuthority => LettersWithoutI("ExerciceOfPublicAuthority");
  }

  lemma {:induction false} LettersWithoutI(s: string)
    requires forall i :: 0 <= i < |s| ==> 'a' <= s[i] <= 'z' || 'A' <= s[i] <= 'H' || 'J' <= s[i] <= 'Z'
    ensures ':' !in s && 'I' !in s
  {
  }

  lemma RoleNameIsPlain(r: RoleKind)
    ensures ':' !in EntityKindName(RoleEntity(r)) && 'I' !in EntityKindName(RoleEntity(r))
  {
  }

  /** Reads an element label: the first "GDPR::" removed, the rest split at
      "::", role and token taken from the first two fields. Fewer than two
      fields is an error; further fields are ignored. */
  function ElementParts(text: string): (r: Result<(string, string)>)
    ensures r.Ok? <==> |Split(ReplaceFirst(text, GdprPrefix, ""), LabelSeparator)| >= 2
  {
    var fs := Split(ReplaceFirst(text, GdprPrefix, ""), LabelSeparator);
    if |fs| < 2 then Err(MalformedLabel) else Ok((fs[0], fs[1]))
  }

  /** The text of an element label. */
  function FormatElement(role: string, token: string): string {
    GdprPrefix + role + LabelSeparator + token
  }

  /** Reading a written element label gives its role and token back. */
  lemma ElementRoundTrip(role: string, token: string)
    requires ':' !in role
    requires token != [] && !Occurs(token, LabelSeparator)
    ensures ElementParts(FormatElement(role, token)) == Ok((role, token))
  {
    var text := FormatElement(role, token);
    assert text == GdprPrefix + (role + LabelSeparator + token);
    assert StartsWith(text, GdprPrefix);
    assert ReplaceFirst(text, GdprPrefix, "") == role + LabelSeparator + token;
    CleanWithoutSeparatorChar(role, LabelSeparator);
    FieldsConcat(role, LabelSeparator, token);
  }

  /** Reads a link label: every "GDPR::" removed, the rest split at "::";
      anything but exactly three fields is not a link label. */
  function LinkParts(text: string): (r: Option<(string, string, string)>)
    ensures r.Some? <==> |Split(ReplaceAll(text, GdprPrefix, ""), LabelSeparator)| == 3
  {
    var fs := Split(ReplaceAll(text, GdprPrefix, ""), LabelSeparator);
    if |fs| != 3 then None else Some((fs[0], fs[1], fs[2]))
  }

  /** The text of a link label. */
  function FormatLink(first: string, role: string, second: string): string {
    GdprPrefix + first + LabelSeparator + role + LabelSeparator + second
  }

  /** No two ':' side by side. */
  predicate NoDoubleColon(w: string) {
    forall k :: 0 <= k < |w| - 1 ==> !(w[k] == ':' && w[k + 1] == ':')
  }

  lemma {:induction false} NoDoubleColonNoSeparator(w: string)
    requires NoDoubleColon(w)
    ensures !Occurs(w, LabelSeparator)
    decreases |w|
  {
    if w != [] {
      assert NoDoubleColon(w[1..]) by {
        forall k | 0 <= k < |w[1..]| - 1
          ensures !(w[1..][k] == ':' && w[1..][k + 1] == ':')
        {
          assert w[1..][k] == w[k + 1] && w[1..][k + 1] == w[k + 2];
        }
      }
      NoDoubleColonNoSeparator(w[1..]);
      if |w| >= 2 {
        assert w[..2] == [w[0], w[1]];
      }
    }
  }

  lemma NoDoubleColonConcat(a: string, b: string)
    requires NoDoubleColon(a) && NoDoubleColon(b)
    requires a != [] && b != [] ==> !(a[|a| - 1] == ':' && b[0] == ':')
    ensures NoDoubleColon(a + b)
  {
    var w := a + b;
    forall k | 0 <= k < |w| - 1
      ensures !(w[k] == ':' && w[k + 1] == ':')
    {
      if k + 1 < |a| {
        assert w[k] == a[k] && w[k + 1] == a[k + 1];
      } else if k + 1 == |a| {
        assert w[k] == a[|a| - 1] && w[k + 1] == b[0];
      } else {
        assert w[k] == b[k - |a|] && w[k + 1] == b[k + 1 - |a|];
      }
    }
  }

  lemma NoColonNoDoubleColon(a: string)
    requires ':' !in a
    ensures NoDoubleColon(a)
  {
    forall k | 0 <= k < |a| - 1
      ensures !(a[k] == ':' && a[k + 1] == ':')
    {
      assert a[k] in a;
    }
  }

  /** A written token with a non-empty name and id holds no "::" and does
      not end in ':', so it is one whole field of a label. */
  lemma TokenIsOneField(t: Token)
    requires PlainToken(t) && t.name != [] && t.id != []
    ensures Clean(FormatToken(t), LabelSeparator)
    ensures !Occurs(FormatToken(t), LabelSeparator)
  {
    var c := TokenSeparator;
    NoColonNoDoubleColon(t.typeName);
    NoColonNoDoubleColon(t.name);
    NoColonNoDoubleColon(t.id);
    assert NoDoubleColon(c);
    assert t.id[0] in t.id && t.name[0] in t.name;
    assert t.id[|t.id| - 1] in t.id && t.name[|t.name| - 1] in t.name;
    NoDoubleColonConcat(t.id, c);
    NoDoubleColonConcat(c, t.id + c);
    NoDoubleColonConcat(t.name, c + (t.id + c));
    NoDoubleColonConcat(c, t.name + (c + (t.id + c)));
    if t.typeName != [] {
      assert t.typeName[|t.typeName| - 1] in t.typeName;
    }
    NoDoubleColonConcat(t.typeName, c + (t.name + (c + (t.id + c))));
    NoDoubleColonConcat(t.id, []);
    NoDoubleColonConcat(c, t.id);
    NoDoubleColonConcat(t.name, c + t.id);
    NoDoubleColonConcat(c, t.name + (c + t.id));
    NoDoubleColonConcat(t.typeName, c + (t.name + (c + t.id)));
    var w := FormatToken(t);
    assert w + LabelSeparator[..1] == t.typeName + (c + (t.name + (c + (t.id + c))));
    assert w == t.typeName + (c + (t.name + (c + t.id)));
    NoDoubleColonNoSeparator(w + LabelSeparator[..1]);
    NoDoubleColonNoSeparator(w);
  }

  /** Removing every `p` from `p + x` leaves `x` when `x` holds no `p`. */
  lemma StripPrefix(p: string, x: string)
    requires p != [] && !Occurs(x, p)
    ensures ReplaceAll(p + x, p, "") == x
  {
    assert StartsWith(p + x, p);
    assert (p + x)[|p|..] == x;
  }

  /** Reading a written link label gives its three parts back, provided its
      text after the prefix holds no further "GDPR::" (all are removed). */
  lemma LinkRoundTrip(first: string, role: string, second: string)
    requires Clean(first, LabelSeparator) && ':' !in role
    requires second != [] && !Occurs(second, LabelSeparator)
    requires !Occurs(first + LabelSeparator + role + LabelSeparator + second, GdprPrefix)
    ensures LinkParts(FormatLink(first, role, second)) == Some((first, role, second))
  {
    var body := first + LabelSeparator + role + LabelSeparator + second;
    assert FormatLink(first, role, second) == GdprPrefix + body;
    StripPrefix(GdprPrefix, body);
    CleanWithoutSeparatorChar(role, LabelSeparator);
    FieldsOfThree(first, role, second, LabelSeparator);
    SplitKeepsFields(body, LabelSeparator, [first, role, second]);
  }

  /** The same for a link label written from two tokens. */
  lemma LinkOfTokensRoundTrip(first: Token, role: string, second: Token)
    requires PlainToken(first) && first.name != [] && first.id != []
    requires PlainToken(second) && second.name != [] && second.id != []
    requires ':' !in role
    requires !Occurs(FormatToken(first) + LabelSeparator + role + LabelSeparator + FormatToken(second), GdprPrefix)
    ensures LinkParts(FormatLink(FormatToken(first), role, FormatToken(second)))
         == Some((FormatToken(first), role, FormatToken(second)))
  {
    TokenIsOneField(first);
    TokenIsOneField(second);
    LinkRoundTrip(FormatToken(first), role, FormatToken(second));
  }

  /** An element label is never read as a link label: it has two fields. */
  lemma ElementLabelIsNoLink(role: string, token: string)
    requires ':' !in role
    requires token != [] && !Occurs(token, LabelSeparator)
    requires !Occurs(role + LabelSeparator + token, GdprPrefix)
    ensures LinkParts(FormatElement(role, token)) == None
  {
    var body := role + LabelSeparator + token;
    assert FormatElement(role, token) == GdprPrefix + body;
    StripPrefix(GdprPrefix, body);
    CleanWithoutSeparatorChar(role, LabelSeparator);
    FieldsConcat(role, LabelSeparator, token);
    SplitKeepsFields(body, LabelSeparator, [role, token]);
  }

  /** The texts of the labels that start with "GDPR::ofType:", in label order. */
  function OfTypeNames(labels: seq<Label>): (r: seq<string>)
    ensures |r| <= |labels|
    ensures forall n :: n in r ==> StartsWith(n, OfTypePrefix) && exists l :: l in labels && l.name == n
    ensures forall l :: l in labels && StartsWith(l.name, OfTypePrefix) ==> l.name in r
    decreases |labels|
  {
    if labels == [] then []
    else
      assert forall l :: l in labels[1..] ==> l in labels;
      if StartsWith(labels[0].name, OfTypePrefix) then [labels[0].name] + OfTypeNames(labels[1..])
      else OfTypeNames(labels[1..])
  }

  /** Filtering keeps label order: the names of `a + b` are those of `a`
      followed by those of `b`. */
  lemma {:induction false} OfTypeNamesConcat(a: seq<Label>, b: seq<Label>)
    ensures OfTypeNames(a + b) == OfTypeNames(a) + OfTypeNames(b)
    decreases |a|
  {
    if a == [] {
      assert a + b == b;
    } else {
      LabelsHead(a, b);
      OfTypeNamesConcat(a[1..], b);
    }
  }

  lemma LabelsHead(a: seq<Label>, b: seq<Label>)
    requires a != []
    ensures a + b != [] && (a + b)[0] == a[0] && (a + b)[1..] == a[1..] + b
  {
    assert (a + b)[1..] == a[1..] + b;
  }

  /** The first `ofType` label in label order is the first name found. */
  lemma {:induction false} FirstOfTypeLabel(labels: seq<Label>, k: nat)
    requires k < |labels| && StartsWith(labels[k].name, OfTypePrefix)
    requires forall j :: 0 <= j < k ==> !StartsWith(labels[j].name, OfTypePrefix)
    ensures OfTypeNames(labels) != [] && OfTypeNames(labels)[0] == labels[k].name
    decreases k
  {
    if k > 0 {
      FirstOfTypeLabel(labels[1..], k - 1);
    }
  }

  /** The variant name an `ofType` label carries: every "GDPR::ofType:" and
      then every "Impl" removed. */
  function OfTypeVariant(text: string): string {
    ReplaceAll(ReplaceAll(text, OfTypePrefix, ""), ImplMarker, "")
  }

  /** Removing every `pat` from a clean `a` followed by `pat` leaves `a`. */
  lemma {:induction false} RemoveTrailingPattern(a: string, pat: string)
    requires pat != [] && Clean(a, pat)
    ensures ReplaceAll(a + pat, pat, "") == a
    decreases |a|
  {
    var p' := pat[..|pat| - 1];
    if a == [] {
      assert a + pat == pat;
      assert StartsWith(pat, pat);
      assert pat[|pat|..] == [];
    } else {
      var s := a + pat;
      assert s[..|pat|] == (a + p')[..|pat|];
      assert !StartsWith(s, pat);
      assert (a + p')[1..] == a[1..] + p';
      assert Clean(a[1..], pat);
      RemoveTrailingPattern(a[1..], pat);
      assert s[1..] == a[1..] + pat;
      assert [a[0]] + a[1..] == a;
    }
  }

  /** An `ofType` label names its variant with or without the "Impl" suffix
      of the implementation class. */
  lemma OfTypeVariantOfName(k: ProcessingKind)
    ensures OfTypeVariant(OfTypePrefix + ProcessingKindName(k)) == ProcessingKindName(k)
    ensures OfTypeVariant(OfTypePrefix + ProcessingKindName(k) + ImplMarker) == ProcessingKindName(k)
  {
    var n := ProcessingKindName(k);
    assert 'G' !in n && 'I' !in n;
    OfTypeVariantOfPlain(n);
    OfTypeVariantOfImpl(n);
  }

  lemma OfTypeVariantOfPlain(n: string)
    requires 'G' !in n && 'I' !in n
    ensures OfTypeVariant(OfTypePrefix + n) == n
  {
    NoOccurrenceWithoutFirstChar(n, OfTypePrefix);
    NoOccurrenceWithoutFirstChar(n, ImplMarker);
    StripPrefix(OfTypePrefix, n);
  }

  lemma OfTypeVariantOfImpl(n: string)
    requires 'G' !in n && 'I' !in n
    ensures OfTypeVariant(OfTypePrefix + n + ImplMarker) == n
  {
    assert 'G' !in n + ImplMarker;
    NoOccurrenceWithoutFirstChar(n + ImplMarker, OfTypePrefix);
    StripPrefix(OfTypePrefix, n + ImplMarker);
    assert OfTypePrefix + n + ImplMarker == OfTypePrefix + (n + ImplMarker);
    CleanWithoutSeparatorChar(n, ImplMarker);
    RemoveTrailingPattern(n, ImplMarker);
  }
}
