/** The projection of a validated MCP tool schema onto the provider-safe keywords
    (k2do/agent/tools/mcp.py, 534-601): total on what the checks before it accept,
    and idempotent. */
module SchemaProjection {
  import opened Prelude
  import opened Json
  import opened SchemaKeywords

  /** What becomes of one member of a schema node. */
  datatype Fate = Drop | Keep(value: Json) | Fail

  predicate AllNames(items: seq<Json>) {
    forall i | 0 <= i < |items| :: items[i].Str? && VisibleName(items[i].s)
  }

  predicate AllNameLists(named: seq<Member>) {
    forall i | 0 <= i < |named| ::
      VisibleName(named[i].key) && named[i].value.Arr? && AllNames(named[i].value.items)
  }

  /** `_provider_schema_node`; None is the contract error. */
  function Project(v: Json): Option<Json> {
    match v
    case Bool(_) => Some(v)
    case Arr(items) => (match ProjectAll(items) case None => None case Some(projected) => Some(Arr(projected)))
    case Obj(members) => (match ProjectMembers(members) case None => None case Some(kept) => Some(Obj(kept)))
    case _ => None
  }

  function ProjectAll(items: seq<Json>): Option<seq<Json>> {
    if items == [] then Some([])
    else
      match (Project(items[0]), ProjectAll(items[1..]))
      case (Some(first), Some(rest)) => Some([first] + rest)
      case _ => None
  }

  function ProjectNamed(named: seq<Member>): Option<seq<Member>> {
    if named == [] then Some([])
    else
      match (Project(named[0].value), ProjectNamed(named[1..]))
      case (Some(first), Some(rest)) =>
        if VisibleName(named[0].key) then Some([Member(named[0].key, first)] + rest) else None
      case _ => None
  }

  function ProjectMembers(members: seq<Member>): Option<seq<Member>> {
    if members == [] then Some([])
    else
      match (ProjectMember(members[0]), ProjectMembers(members[1..]))
      case (Fail, _) => None
      case (_, None) => None
      case (Drop, Some(rest)) => Some(rest)
      case (Keep(value), Some(rest)) => Some([Member(members[0].key, value)] + rest)
  }

  function KeepIf(value: Option<Json>): Fate {
    if value.None? then Fail else Keep(value.value)
  }

  function ProjectMember(m: Member): Fate {
    if IsAnnotation(m.key) then Drop
    else if m.key in MAP_KEYS then
      if !m.value.Obj? then Fail
      else match ProjectNamed(m.value.members) case None => Fail case Some(named) => Keep(Obj(named))
    else if m.key in LIST_KEYS then
      if !m.value.Arr? then Fail
      else match ProjectAll(m.value.items) case None => Fail case Some(items) => Keep(Arr(items))
    else if m.key in VALUE_KEYS then KeepIf(Project(m.value))
    else if m.key == "required" then
      if m.value.Arr? && AllNames(m.value.items) then Keep(m.value) else Fail
    else if m.key == "dependentRequired" then
      if m.value.Obj? && AllNameLists(m.value.members) then Keep(m.value) else Fail
    else if m.key == "$ref" then
      match LocalRefName(m.value) case None => Fail case Some(name) => Keep(Str(DEFS_PREFIX + name))
    else if m.key in JSON_LITERAL_KEYS || m.key in LITERAL_KEYS then Keep(m.value)
    else if m.key == "format" then
      if m.value.Str? && m.value.s in FORMATS then Keep(m.value) else Fail
    else Drop
  }

  /** `_provider_input_schema`. */
  function ProviderInputSchema(schema: Json): Option<Json> {
    match Project(schema)
    case Some(Obj(members)) => if Get(members, "type") == Some(Str("object")) then Some(Obj(members)) else None
    case _ => None
  }

  // ---------- what the checks before the projection guarantee ----------

  /** The keyword, name, reference and format rules of `_validate_schema_value`, which hold for
      every object of the document. */
  predicate Validated(v: Json) {
    match v
    case Arr(items) => forall i | 0 <= i < |items| :: Validated(items[i])
    case Obj(members) => forall i | 0 <= i < |members| :: Validated(members[i].value) && RulesHold(members[i])
    case _ => true
  }

  predicate RulesHold(m: Member) {
    && m.key !in FORBIDDEN_KEYS
    && (m.key in MAP_KEYS && m.value.Obj? ==>
          forall i | 0 <= i < |m.value.members| :: VisibleName(m.value.members[i].key))
    && (m.key == "required" && m.value.Arr? ==> AllNames(m.value.items))
    && (m.key == "dependentRequired" && m.value.Obj? ==>
          forall i | 0 <= i < |m.value.members| ::
            VisibleName(m.value.members[i].key)
            && (m.value.members[i].value.Arr? ==> AllNames(m.value.members[i].value.items)))
    && (m.key == "$ref" ==> LocalRefName(m.value).Some?)
    && (m.key == "format" ==> m.value.Str? && m.value.s in FORMATS)
  }

  /** The keyword shapes that the Draft 2020-12 metaschema demands of a schema. */
  predicate Shaped(v: Json) {
    match v
    case Bool(_) => true
    case Obj(members) => forall i | 0 <= i < |members| :: ShapedMember(members[i])
    case _ => false
  }

  predicate ShapedMember(m: Member) {
    && (m.key in MAP_KEYS ==>
          m.value.Obj? && forall i | 0 <= i < |m.value.members| :: Shaped(m.value.members[i].value))
    && (m.key in LIST_KEYS ==>
          m.value.Arr? && forall i | 0 <= i < |m.value.items| :: Shaped(m.value.items[i]))
    && (m.key in VALUE_KEYS ==> Shaped(m.value))
    && (m.key == "required" ==> m.value.Arr?)
    && (m.key == "dependentRequired" ==>
          m.value.Obj? && forall i | 0 <= i < |m.value.members| :: m.value.members[i].value.Arr?)
  }

  // ---------- totality ----------

  lemma {:induction false} ProjectAllTotal(items: seq<Json>)
    requires forall i | 0 <= i < |items| :: Shaped(items[i]) && Validated(items[i])
    ensures ProjectAll(items).Some?
    decreases items, 0
  {
    if items != [] {
      ProjectTotal(items[0]);
      ProjectAllTotal(items[1..]);
    }
  }

  lemma {:induction false} ProjectNamedTotal(named: seq<Member>)
    requires forall i | 0 <= i < |named| ::
               Shaped(named[i].value) && Validated(named[i].value) && VisibleName(named[i].key)
    ensures ProjectNamed(named).Some?
    decreases named, 0
  {
    if named != [] {
      ProjectTotal(named[0].value);
      ProjectNamedTotal(named[1..]);
    }
  }

  lemma {:induction false} ProjectMemberTotal(m: Member)
    requires ShapedMember(m) && Validated(m.value) && RulesHold(m)
    ensures !ProjectMember(m).Fail?
    decreases m, 0
  {
    if m.key in MAP_KEYS {
      ProjectNamedTotal(m.value.members);
    } else if m.key in LIST_KEYS {
      ProjectAllTotal(m.value.items);
    } else if m.key in VALUE_KEYS {
      ProjectTotal(m.value);
    }
  }

  lemma {:induction false} ProjectMembersTotal(members: seq<Member>)
    requires forall i | 0 <= i < |members| ::
               ShapedMember(members[i]) && Validated(members[i].value) && RulesHold(members[i])
    ensures ProjectMembers(members).Some?
    decreases members, 0
  {
    if members != [] {
      ProjectMemberTotal(members[0]);
      ProjectMembersTotal(members[1..]);
    }
  }

  /** No validated schema makes the projection raise. */
  lemma {:induction false} ProjectTotal(v: Json)
    requires Shaped(v) && Validated(v)
    ensures Project(v).Some?
    decreases v, 1
  {
    if v.Obj? {
      ProjectMembersTotal(v.members);
    }
  }

  // ---------- what survives ----------

  /** A keyword survives with its projected value, or not at all, wherever it stands. */
  lemma {:induction false} GetProjected(members: seq<Member>, kept: seq<Member>, key: string)
    requires ProjectMembers(members) == Some(kept)
    ensures Get(members, key).None? ==> Get(kept, key).None?
    ensures Get(members, key).Some? ==>
              var fate := ProjectMember(Member(key, Get(members, key).value));
              !fate.Fail? && Get(kept, key) == if fate.Keep? then Some(fate.value) else None
    decreases |members|
  {
    if members != [] {
      var rest := ProjectMembers(members[1..]).value;
      GetProjected(members[1..], rest, key);
      match ProjectMember(members[0]) {
        case Keep(value) =>
          assert kept == [Member(members[0].key, value)] + rest && kept[1..] == rest;
        case Drop =>
          if members[0].key == key { NeverKept(members[1..], rest, key); }
      }
      assert members[0] == Member(members[0].key, members[0].value);
    }
  }

  /** Dropping depends on the keyword alone. */
  lemma {:induction false} NeverKept(members: seq<Member>, kept: seq<Member>, key: string)
    requires ProjectMembers(members) == Some(kept)
    requires exists v :: ProjectMember(Member(key, v)).Drop?
    ensures Get(kept, key).None?
    decreases |members|
  {
    if members != [] {
      var rest := ProjectMembers(members[1..]).value;
      NeverKept(members[1..], rest, key);
      if ProjectMember(members[0]).Keep? {
        assert kept[1..] == rest;
        assert members[0] == Member(members[0].key, members[0].value);
      }
    }
  }

  lemma {:induction false} ProjectAllAt(items: seq<Json>, projected: seq<Json>)
    requires ProjectAll(items) == Some(projected)
    ensures |projected| == |items|
    ensures forall i | 0 <= i < |items| :: Project(items[i]) == Some(projected[i])
  {
    if items != [] {
      var rest := ProjectAll(items[1..]).value;
      ProjectAllAt(items[1..], rest);
      forall i | 0 <= i < |items| ensures Project(items[i]) == Some(projected[i]) {
        if i > 0 { assert items[i] == items[1..][i - 1] && projected[i] == rest[i - 1]; }
      }
    }
  }

  lemma {:induction false} ProjectNamedAt(named: seq<Member>, projected: seq<Member>)
    requires ProjectNamed(named) == Some(projected)
    ensures |projected| == |named|
    ensures forall i | 0 <= i < |named| ::
              projected[i].key == named[i].key && Project(named[i].value) == Some(projected[i].value)
  {
    if named != [] {
      var rest := ProjectNamed(named[1..]).value;
      ProjectNamedAt(named[1..], rest);
      forall i | 0 <= i < |named|
        ensures projected[i].key == named[i].key && Project(named[i].value) == Some(projected[i].value)
      {
        if i > 0 { assert named[i] == named[1..][i - 1] && projected[i] == rest[i - 1]; }
      }
    }
  }

  lemma {:induction false} NamedGet(named: seq<Member>, projected: seq<Member>, name: string)
    requires ProjectNamed(named) == Some(projected)
    ensures Get(projected, name) == match Get(named, name) case None => None case Some(v) => Project(v)
  {
    if named != [] {
      var rest := ProjectNamed(named[1..]).value;
      assert projected[1..] == rest;
      NamedGet(named[1..], rest, name);
    }
  }

  // ---------- projecting twice ----------

  lemma {:induction false} ProjectAllTwice(items: seq<Json>)
    requires ProjectAll(items).Some?
    ensures ProjectAll(ProjectAll(items).value) == ProjectAll(items)
    decreases items, 0
  {
    if items != [] {
      ProjectTwice(items[0]);
      ProjectAllTwice(items[1..]);
      assert ProjectAll(items).value[1..] == ProjectAll(items[1..]).value;
    }
  }

  lemma {:induction false} ProjectNamedTwice(named: seq<Member>)
    requires ProjectNamed(named).Some?
    ensures ProjectNamed(ProjectNamed(named).value) == ProjectNamed(named)
    decreases named, 0
  {
    if named != [] {
      ProjectTwice(named[0].value);
      ProjectNamedTwice(named[1..]);
      assert ProjectNamed(named).value[1..] == ProjectNamed(named[1..]).value;
    }
  }

  lemma {:induction false} ProjectMemberTwice(m: Member)
    requires ProjectMember(m).Keep?
    ensures ProjectMember(Member(m.key, ProjectMember(m).value)) == ProjectMember(m)
    decreases m, 0
  {
    if m.key in MAP_KEYS {
      ProjectNamedTwice(m.value.members);
    } else if m.key in LIST_KEYS {
      ProjectAllTwice(m.value.items);
    } else if m.key in VALUE_KEYS {
      ProjectTwice(m.value);
    } else if m.key == "$ref" {
      LocalRefIsCanonical(m.value);
    }
  }

  lemma {:induction false} ProjectMembersTwice(members: seq<Member>)
    requires ProjectMembers(members).Some?
    ensures ProjectMembers(ProjectMembers(members).value) == ProjectMembers(members)
    decreases members, 0
  {
    if members != [] {
      ProjectMembersTwice(members[1..]);
      if ProjectMember(members[0]).Keep? {
        ProjectMemberTwice(members[0]);
        assert ProjectMembers(members).value[1..] == ProjectMembers(members[1..]).value;
      }
    }
  }

  /** Projecting a projected schema changes nothing. */
  lemma {:induction false} ProjectTwice(v: Json)
    requires Project(v).Some?
    ensures Project(Project(v).value) == Project(v)
    decreases v, 1
  {
    match v {
      case Arr(items) => ProjectAllTwice(items);
      case Obj(members) => ProjectMembersTwice(members);
      case _ =>
    }
  }

  /** An accepted input schema always has a provider form, and it stays an object schema. */
  lemma {:induction false} ProviderSchemaTotal(schema: Json)
    requires Shaped(schema) && Validated(schema)
    requires schema.Obj? && Get(schema.members, "type") == Some(Str("object"))
    ensures ProviderInputSchema(schema).Some? && ProviderInputSchema(schema) == Project(schema)
    ensures ProviderInputSchema(ProviderInputSchema(schema).value) == ProviderInputSchema(schema)
  {
    ProjectTotal(schema);
    ProjectTwice(schema);
    GetProjected(schema.members, Project(schema).value.members, "type");
  }
}
