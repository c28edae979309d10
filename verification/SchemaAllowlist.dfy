/** What the provider gets to see of a schema (k2do/agent/tools/mcp.py, 82-88, 105-158,
    531-594), said of the projection's output alone: keywords from a fixed list, visible
    names, local references and known formats, at every depth. */
module SchemaAllowlist {
  import opened Prelude
  import opened Json
  import opened SchemaKeywords
  import opened SchemaProjection

  const ALLOWED: seq<string> :=
    ["$defs", "$ref", "additionalProperties", "allOf", "anyOf", "const", "contains", "dependentRequired",
     "dependentSchemas", "else", "enum", "exclusiveMaximum", "exclusiveMinimum", "format", "if", "items",
     "maxContains", "maxItems", "maxLength", "maxProperties", "maximum", "minContains", "minItems", "minLength",
     "minProperties", "minimum", "multipleOf", "not", "oneOf", "prefixItems", "properties", "propertyNames",
     "required", "then", "type", "unevaluatedItems", "unevaluatedProperties", "uniqueItems"]

  const NAMED: seq<string> := ["$defs", "dependentSchemas", "properties"]
  const LISTED: seq<string> := ["allOf", "anyOf", "oneOf", "prefixItems"]
  const SINGLE: seq<string> :=
    ["additionalProperties", "contains", "else", "if", "items", "not", "propertyNames", "then", "unevaluatedItems",
     "unevaluatedProperties"]

  /** `value` is a schema, or a list of schemas, with nothing in it that is not allowed. */
  predicate OnlyAllowed(value: Json)
    decreases value, 2
  {
    match value
    case Bool(_) => true
    case Arr(items) => forall i | 0 <= i < |items| :: OnlyAllowed(items[i])
    case Obj(members) => forall i | 0 <= i < |members| :: AllowedMember(members[i])
    case _ => false
  }

  predicate AllowedMember(m: Member)
    decreases m, 1
  {
    m.key in ALLOWED && SchemasAllowed(m) && NamesAllowed(m)
  }

  predicate SchemasAllowed(m: Member)
    decreases m, 0
  {
    && (m.key in NAMED ==>
          m.value.Obj? && forall i | 0 <= i < |m.value.members| ::
            VisibleName(m.value.members[i].key) && OnlyAllowed(m.value.members[i].value))
    && (m.key in LISTED ==> m.value.Arr? && OnlyAllowed(m.value))
    && (m.key in SINGLE ==> OnlyAllowed(m.value))
  }

  predicate NamesAllowed(m: Member) {
    && (m.key == "required" ==> m.value.Arr? && VisibleNames(m.value.items))
    && (m.key == "dependentRequired" ==>
          m.value.Obj? && forall i | 0 <= i < |m.value.members| ::
            VisibleName(m.value.members[i].key) && m.value.members[i].value.Arr? && VisibleNames(m.value.members[i].value.items))
    && (m.key == "$ref" ==> m.value.Str? && "#/$defs/" <= m.value.s && VisibleName(m.value.s[8..]))
    && (m.key == "format" ==>
          m.value.Str? && m.value.s in ["date", "date-time", "duration", "email", "hostname", "ipv4", "ipv6", "time", "uri", "uuid"])
  }

  predicate VisibleNames(items: seq<Json>) {
    forall i | 0 <= i < |items| :: items[i].Str? && VisibleName(items[i].s)
  }

  /** A comment, a text for people, or an extension. */
  predicate Annotation(key: string) {
    || key in ["$comment", "default", "deprecated", "description", "examples", "readOnly", "title", "writeOnly"]
    || (|key| >= 2 && (key[0] == 'x' || key[0] == 'X') && key[1] == '-')
  }

  // The annotations differ from the keywords of the list in their first characters.

  lemma {:induction false} DefaultIsNotAllowed(key: string)
    requires |key| >= 4 && key[0] == 'd' && (key[2] == 'f' || key[2] == 's')
    ensures key !in ALLOWED
  {
  }

  lemma {:induction false} DeprecatedIsNotAllowed(key: string)
    requires |key| >= 4 && key[0] == 'd' && key[3] == 'r'
    ensures key !in ALLOWED
  {
  }

  lemma {:induction false} CommentIsNotAllowed(key: string)
    requires |key| >= 4 && key[0] == '$' && key[1] == 'c'
    ensures key !in ALLOWED
  {
  }

  lemma {:induction false} ExamplesAreNotAllowed(key: string)
    requires |key| >= 4 && (key[0] == 'e' || key[0] == 'r') && key[2] == 'a'
    ensures key !in ALLOWED
  {
  }

  lemma {:induction false} TitleIsNotAllowed(key: string)
    requires |key| >= 4 && ((key[0] == 't' && key[1] == 'i') || key[0] == 'w')
    ensures key !in ALLOWED
  {
  }

  lemma {:induction false} ExtensionsAreNotAllowed(key: string)
    requires |key| >= 2 && (key[0] == 'x' || key[0] == 'X')
    ensures key !in ALLOWED
  {
  }

  /** No annotation and no extension is on the list. */
  lemma {:induction false} AnnotationsAreNotAllowed(key: string)
    requires Annotation(key)
    ensures key !in ALLOWED
  {
    if key == "default" || key == "description" {
      DefaultIsNotAllowed(key);
    } else if key == "deprecated" {
      DeprecatedIsNotAllowed(key);
    } else if key == "$comment" {
      CommentIsNotAllowed(key);
    } else if key == "examples" || key == "readOnly" {
      ExamplesAreNotAllowed(key);
    } else if key == "title" || key == "writeOnly" {
      TitleIsNotAllowed(key);
    } else {
      ExtensionsAreNotAllowed(key);
    }
  }

  lemma {:induction false} SameAnnotations(key: string)
    ensures IsAnnotation(key) <==> Annotation(key)
  {
  }

  lemma {:induction false} KeptKeyAllowed(m: Member)
    requires ProjectMember(m).Keep?
    ensures m.key in ALLOWED
  {
  }

  predicate Grouped(key: string) {
    || key in MAP_KEYS || key in LIST_KEYS || key in VALUE_KEYS || key in JSON_LITERAL_KEYS || key in LITERAL_KEYS
    || key in ["required", "dependentRequired", "$ref", "format"]
  }

  lemma {:induction false} AllowedIsGrouped(key: string)
    requires key in ALLOWED
    ensures Grouped(key)
  {
  }

  lemma {:induction false} GroupedIsNotDropped(m: Member)
    requires Grouped(m.key) && !IsAnnotation(m.key)
    ensures !ProjectMember(m).Drop?
  {
  }

  /** A member is dropped exactly when its keyword is not on the list. */
  lemma {:induction false} DroppedExactly(m: Member)
    ensures ProjectMember(m).Drop? <==> m.key !in ALLOWED
  {
    SameAnnotations(m.key);
    if Annotation(m.key) {
      AnnotationsAreNotAllowed(m.key);
    } else if m.key in ALLOWED {
      AllowedIsGrouped(m.key);
      GroupedIsNotDropped(m);
    }
  }

  // ---------- the output, at every depth ----------

  lemma {:induction false} NamedAllowed(named: seq<Member>, projected: seq<Member>)
    requires ProjectNamed(named) == Some(projected)
    ensures forall i | 0 <= i < |projected| :: VisibleName(projected[i].key) && OnlyAllowed(projected[i].value)
    decreases named, 0
  {
    if named != [] {
      OutputIsAllowed(named[0].value, projected[0].value);
      NamedAllowed(named[1..], projected[1..]);
      forall i | 0 <= i < |projected| ensures VisibleName(projected[i].key) && OnlyAllowed(projected[i].value) {
        if i > 0 { assert projected[i] == projected[1..][i - 1]; }
      }
    }
  }

  lemma {:induction false} ListAllowed(items: seq<Json>, projected: seq<Json>)
    requires ProjectAll(items) == Some(projected)
    ensures forall i | 0 <= i < |projected| :: OnlyAllowed(projected[i])
    decreases items, 0
  {
    if items != [] {
      OutputIsAllowed(items[0], projected[0]);
      ListAllowed(items[1..], projected[1..]);
      forall i | 0 <= i < |projected| ensures OnlyAllowed(projected[i]) {
        if i > 0 { assert projected[i] == projected[1..][i - 1]; }
      }
    }
  }

  lemma {:induction false} RefAllowed(reference: Json, name: string)
    requires LocalRefName(reference) == Some(name)
    ensures "#/$defs/" <= DEFS_PREFIX + name && VisibleName((DEFS_PREFIX + name)[8..])
  {
    assert (DEFS_PREFIX + name)[8..] == name;
  }

  lemma {:induction false} NamesStay(m: Member, value: Json)
    requires ProjectMember(m) == Keep(value)
    ensures NamesAllowed(Member(m.key, value))
  {
    if m.key == "$ref" {
      RefAllowed(m.value, LocalRefName(m.value).value);
    }
  }

  lemma {:induction false} SchemasStay(m: Member, value: Json)
    requires ProjectMember(m) == Keep(value)
    ensures SchemasAllowed(Member(m.key, value))
    decreases m, 0
  {
    if m.key in MAP_KEYS {
      NamedAllowed(m.value.members, value.members);
    } else if m.key in LIST_KEYS {
      ListAllowed(m.value.items, value.items);
    } else if m.key in VALUE_KEYS {
      OutputIsAllowed(m.value, value);
    }
  }

  lemma {:induction false} MemberAllowed(m: Member, value: Json)
    requires ProjectMember(m) == Keep(value)
    ensures AllowedMember(Member(m.key, value))
    decreases m, 1
  {
    KeptKeyAllowed(m);
    NamesStay(m, value);
    SchemasStay(m, value);
  }

  lemma {:induction false} OneMoreAllowed(first: Member, rest: seq<Member>)
    requires AllowedMember(first) && OnlyAllowed(Obj(rest))
    ensures OnlyAllowed(Obj([first] + rest))
  {
  }

  lemma {:induction false} MembersAllowed(members: seq<Member>, kept: seq<Member>)
    requires ProjectMembers(members) == Some(kept)
    ensures OnlyAllowed(Obj(kept))
    decreases members, 0
  {
    if members != [] {
      var rest := ProjectMembers(members[1..]).value;
      MembersAllowed(members[1..], rest);
      if ProjectMember(members[0]).Keep? {
        MemberAllowed(members[0], kept[0].value);
        OneMoreAllowed(kept[0], rest);
      }
    }
  }

  /** Whatever the projection is given, what it returns holds nothing that is not allowed, at
      any depth: no annotation, no extension, no other keyword, no hidden name, no reference
      but a plain local one, no unknown format. */
  lemma {:induction false} OutputIsAllowed(value: Json, projected: Json)
    requires Project(value) == Some(projected)
    ensures OnlyAllowed(projected)
    decreases value, 1
  {
    match value {
      case Bool(_) =>
      case Arr(items) => ListAllowed(items, projected.items);
      case Obj(members) => MembersAllowed(members, projected.members);
    }
  }

  /** And nothing on the list is lost: a projected schema object has exactly those of the
      object's keywords that are allowed. */
  lemma {:induction false} AllowedAreKept(members: seq<Member>, kept: seq<Member>, key: string)
    requires ProjectMembers(members) == Some(kept)
    ensures Has(kept, key) <==> Has(members, key) && key in ALLOWED
  {
    GetProjected(members, kept, key);
    if Has(members, key) {
      DroppedExactly(Member(key, Get(members, key).value));
    }
  }

  /** The schema a provider sees. */
  lemma {:induction false} ProviderSeesOnlyAllowed(schema: Json)
    requires ProviderInputSchema(schema).Some?
    ensures OnlyAllowed(ProviderInputSchema(schema).value)
  {
    OutputIsAllowed(schema, ProviderInputSchema(schema).value);
  }
}
