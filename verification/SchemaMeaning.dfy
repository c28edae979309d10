/** What a schema means, and that projecting a schema does not change it. The evaluator
    follows JSON Schema Draft 2020-12: Core sections 8.2.3, 10.2, 10.3, 11.2 and 11.3,
    Validation section 6. */
module SchemaMeaning {
  import opened Prelude
  import opened Json
  import opened SchemaKeywords
  import opened SchemaComplexity
  import opened SchemaProjection

  /** A direct child of an instance. */
  datatype Place = Item(index: nat) | Property(name: string)

  /** What is asked of a schema: that the instance is valid, or that it is valid and its
      child at `place` counts as evaluated. */
  datatype Question = Whole(instance: Json) | Evaluates(instance: Json, place: Place)

  /** The answers of subschemas: `sub(schema, question)`. */
  type Sub = (Json, Question) -> bool

  /** The meaning of an assertion that depends on its own value only: `literal(keyword, value, instance)`. */
  type Literal = (string, Json, Json) -> bool

  const ASSERTION_KEYS: seq<string> := LITERAL_KEYS + JSON_LITERAL_KEYS + ["format"]

  function Items(members: seq<Member>, key: string): seq<Json> {
    match Get(members, key) case Some(Arr(items)) => items case _ => []
  }

  function Named(members: seq<Member>, key: string): seq<Member> {
    match Get(members, key) case Some(Obj(named)) => named case _ => []
  }

  function Count(sub: Sub, schemas: seq<Json>, instance: Json): nat {
    if schemas == [] then 0
    else (if sub(schemas[0], Whole(instance)) then 1 else 0) + Count(sub, schemas[1..], instance)
  }

  function CountItems(sub: Sub, schema: Json, items: seq<Json>): nat {
    if items == [] then 0
    else (if sub(schema, Whole(items[0])) then 1 else 0) + CountItems(sub, schema, items[1..])
  }

  // ---------- references and applicators ----------

  predicate RefHolds(sub: Sub, root: Json, members: seq<Member>, instance: Json) {
    match Get(members, "$ref")
    case None => true
    case Some(Null) => true
    case Some(reference) =>
      match Resolve(root, reference)
      case None => false
      case Some(target) => sub(target, Whole(instance))
  }

  predicate AllOfHolds(sub: Sub, members: seq<Member>, instance: Json) {
    var schemas := Items(members, "allOf");
    forall i | 0 <= i < |schemas| :: sub(schemas[i], Whole(instance))
  }

  predicate AnyOfHolds(sub: Sub, members: seq<Member>, instance: Json) {
    var schemas := Items(members, "anyOf");
    Has(members, "anyOf") ==> exists i | 0 <= i < |schemas| :: sub(schemas[i], Whole(instance))
  }

  predicate OneOfHolds(sub: Sub, members: seq<Member>, instance: Json) {
    Has(members, "oneOf") ==> Count(sub, Items(members, "oneOf"), instance) == 1
  }

  predicate NotHolds(sub: Sub, members: seq<Member>, instance: Json) {
    match Get(members, "not") case None => true case Some(schema) => !sub(schema, Whole(instance))
  }

  predicate IfHolds(sub: Sub, members: seq<Member>, instance: Json) {
    match Get(members, "if")
    case None => true
    case Some(condition) =>
      match Get(members, if sub(condition, Whole(instance)) then "then" else "else")
      case None => true
      case Some(schema) => sub(schema, Whole(instance))
  }

  predicate PrefixItemsHolds(sub: Sub, members: seq<Member>, instance: Json) {
    var schemas := Items(members, "prefixItems");
    instance.Arr? ==>
      forall i | 0 <= i < |schemas| && i < |instance.items| :: sub(schemas[i], Whole(instance.items[i]))
  }

  predicate ItemsHolds(sub: Sub, members: seq<Member>, instance: Json) {
    match Get(members, "items")
    case None => true
    case Some(schema) =>
      instance.Arr? ==>
        forall i | |Items(members, "prefixItems")| <= i < |instance.items| :: sub(schema, Whole(instance.items[i]))
  }

  predicate ContainsHolds(sub: Sub, members: seq<Member>, instance: Json) {
    match Get(members, "contains")
    case None => true
    case Some(schema) =>
      instance.Arr? ==>
        var n := CountItems(sub, schema, instance.items) as real;
        && (match Get(members, "minContains") case Some(Num(least)) => least <= n case _ => n >= 1.0)
        && (match Get(members, "maxContains") case Some(Num(most)) => n <= most case _ => true)
  }

  predicate PropertiesHolds(sub: Sub, members: seq<Member>, instance: Json) {
    var named := Named(members, "properties");
    instance.Obj? ==>
      forall i | 0 <= i < |named| && Has(instance.members, named[i].key) ::
        sub(named[i].value, Whole(Get(instance.members, named[i].key).value))
  }

  predicate AdditionalHolds(sub: Sub, members: seq<Member>, instance: Json) {
    match Get(members, "additionalProperties")
    case None => true
    case Some(schema) =>
      instance.Obj? ==>
        forall i | 0 <= i < |instance.members| && !Has(Named(members, "properties"), instance.members[i].key) ::
          sub(schema, Whole(instance.members[i].value))
  }

  predicate PropertyNamesHolds(sub: Sub, members: seq<Member>, instance: Json) {
    match Get(members, "propertyNames")
    case None => true
    case Some(schema) =>
      instance.Obj? ==> forall i | 0 <= i < |instance.members| :: sub(schema, Whole(Str(instance.members[i].key)))
  }

  predicate DependentSchemasHolds(sub: Sub, members: seq<Member>, instance: Json) {
    var named := Named(members, "dependentSchemas");
    instance.Obj? ==>
      forall i | 0 <= i < |named| && Has(instance.members, named[i].key) :: sub(named[i].value, Whole(instance))
  }

  predicate Present(names: seq<Json>, members: seq<Member>) {
    forall i | 0 <= i < |names| && names[i].Str? :: Has(members, names[i].s)
  }

  predicate RequiredHolds(members: seq<Member>, instance: Json) {
    var named := Named(members, "dependentRequired");
    instance.Obj? ==>
      && Present(Items(members, "required"), instance.members)
      && forall i | 0 <= i < |named| && named[i].value.Arr? && Has(instance.members, named[i].key) ::
           Present(named[i].value.items, instance.members)
  }

  predicate LiteralsHold(literal: Literal, members: seq<Member>, instance: Json) {
    forall key | key in ASSERTION_KEYS && Has(members, key) :: literal(key, Get(members, key).value, instance)
  }

  // ---------- unevaluated children ----------

  predicate EvaluatedByRef(sub: Sub, root: Json, members: seq<Member>, instance: Json, place: Place) {
    match Get(members, "$ref")
    case None => false
    case Some(reference) =>
      match Resolve(root, reference)
      case None => false
      case Some(target) => sub(target, Evaluates(instance, place))
  }

  predicate EvaluatedByBranch(sub: Sub, members: seq<Member>, key: string, instance: Json, place: Place) {
    var schemas := Items(members, key);
    exists i | 0 <= i < |schemas| :: sub(schemas[i], Evaluates(instance, place))
  }

  predicate EvaluatedByIf(sub: Sub, members: seq<Member>, instance: Json, place: Place) {
    match Get(members, "if")
    case None => false
    case Some(condition) =>
      || sub(condition, Evaluates(instance, place))
      || match Get(members, if sub(condition, Whole(instance)) then "then" else "else")
         case None => false
         case Some(schema) => sub(schema, Evaluates(instance, place))
  }

  predicate EvaluatedByDependent(sub: Sub, members: seq<Member>, instance: Json, place: Place) {
    var named := Named(members, "dependentSchemas");
    instance.Obj? &&
      exists i | 0 <= i < |named| && Has(instance.members, named[i].key) :: sub(named[i].value, Evaluates(instance, place))
  }

  predicate EvaluatedHere(sub: Sub, members: seq<Member>, instance: Json, place: Place) {
    match place
    case Property(name) => instance.Obj? && (Has(Named(members, "properties"), name) || Has(members, "additionalProperties"))
    case Item(i) =>
      && instance.Arr? && i < |instance.items|
      && (i < |Items(members, "prefixItems")| || Has(members, "items")
          || (Has(members, "contains") && sub(Get(members, "contains").value, Whole(instance.items[i]))))
  }

  /** Some keyword beside `unevaluatedItems` and `unevaluatedProperties` evaluates the child. */
  predicate Evaluated(sub: Sub, root: Json, members: seq<Member>, instance: Json, place: Place) {
    || EvaluatedHere(sub, members, instance, place) || EvaluatedByRef(sub, root, members, instance, place)
    || EvaluatedByBranch(sub, members, "allOf", instance, place) || EvaluatedByBranch(sub, members, "anyOf", instance, place)
    || EvaluatedByBranch(sub, members, "oneOf", instance, place) || EvaluatedByIf(sub, members, instance, place)
    || EvaluatedByDependent(sub, members, instance, place)
  }

  predicate UnevaluatedItemsHolds(sub: Sub, root: Json, members: seq<Member>, instance: Json) {
    match Get(members, "unevaluatedItems")
    case None => true
    case Some(schema) =>
      instance.Arr? ==>
        forall i | 0 <= i < |instance.items| && !Evaluated(sub, root, members, instance, Item(i)) ::
          sub(schema, Whole(instance.items[i]))
  }

  predicate UnevaluatedPropertiesHolds(sub: Sub, root: Json, members: seq<Member>, instance: Json) {
    match Get(members, "unevaluatedProperties")
    case None => true
    case Some(schema) =>
      instance.Obj? ==>
        forall i | 0 <= i < |instance.members| && !Evaluated(sub, root, members, instance, Property(instance.members[i].key)) ::
          sub(schema, Whole(instance.members[i].value))
  }

  /** What a schema object evaluates: what its keywords do, and the rest when it says how. */
  predicate NodeEvaluates(sub: Sub, root: Json, members: seq<Member>, instance: Json, place: Place) {
    || Evaluated(sub, root, members, instance, place)
    || (place.Item? && Has(members, "unevaluatedItems")) || (place.Property? && Has(members, "unevaluatedProperties"))
  }

  predicate NodeHolds(literal: Literal, sub: Sub, root: Json, members: seq<Member>, instance: Json) {
    && RefHolds(sub, root, members, instance)
    && AllOfHolds(sub, members, instance) && AnyOfHolds(sub, members, instance) && OneOfHolds(sub, members, instance)
    && NotHolds(sub, members, instance) && IfHolds(sub, members, instance)
    && PrefixItemsHolds(sub, members, instance) && ItemsHolds(sub, members, instance)
    && ContainsHolds(sub, members, instance)
    && PropertiesHolds(sub, members, instance) && AdditionalHolds(sub, members, instance)
    && PropertyNamesHolds(sub, members, instance) && DependentSchemasHolds(sub, members, instance)
    && RequiredHolds(members, instance) && LiteralsHold(literal, members, instance)
    && UnevaluatedItemsHolds(sub, root, members, instance) && UnevaluatedPropertiesHolds(sub, root, members, instance)
  }

  predicate NodeAnswers(literal: Literal, sub: Sub, root: Json, members: seq<Member>, question: Question) {
    && NodeHolds(literal, sub, root, members, question.instance)
    && (question.Evaluates? ==> NodeEvaluates(sub, root, members, question.instance, question.place))
  }

  /** The answer with at most `fuel` nested subschemas; beyond that, no. A schema that is a
      truth value evaluates nothing. */
  predicate Answers(literal: Literal, root: Json, schema: Json, question: Question, fuel: nat)
    decreases fuel, 0
  {
    if fuel == 0 then false
    else
      match schema
      case Bool(b) => b && question.Whole?
      case Obj(members) => NodeAnswers(literal, Reader(literal, root, fuel - 1), root, members, question)
      case _ => false
  }

  function Reader(literal: Literal, root: Json, fuel: nat): Sub
    decreases fuel, 1
  {
    (schema: Json, question: Question) => Answers(literal, root, schema, question, fuel)
  }

  predicate Valid(literal: Literal, root: Json, schema: Json, instance: Json, fuel: nat) {
    Answers(literal, root, schema, Whole(instance), fuel)
  }

  // ---------- agreement keyword by keyword ----------

  /** The two readings agree on every one of these subschemas, projected for the second. */
  ghost predicate Agree(sub: Sub, sub': Sub, children: seq<Child>) {
    forall i | 0 <= i < |children| :: Project(children[i].node).Some? && AgreeOn(sub, sub', children[i].node)
  }

  ghost predicate AgreeOn(sub: Sub, sub': Sub, schema: Json)
    requires Project(schema).Some?
  {
    forall x :: sub(schema, x) == sub'(Project(schema).value, x)
  }

  lemma {:induction false} AgreeFrom(sub: Sub, sub': Sub, members: seq<Member>, keys: seq<string>, key: string)
    requires Agree(sub, sub', ChildrenFrom(members, keys)) && key in keys
    ensures Agree(sub, sub', KeyChildren(members, key))
  {
    var first := KeyChildren(members, keys[0]);
    var rest := ChildrenFrom(members, keys[1..]);
    var all := first + rest;
    if key == keys[0] {
      forall i | 0 <= i < |first| ensures Project(first[i].node).Some? && AgreeOn(sub, sub', first[i].node) {
        assert first[i] == all[i];
      }
    } else {
      forall i | 0 <= i < |rest| ensures Project(rest[i].node).Some? && AgreeOn(sub, sub', rest[i].node) {
        assert rest[i] == all[|first| + i];
      }
      AgreeFrom(sub, sub', members, keys[1..], key);
    }
  }

  lemma {:induction false} ListItemAgrees(sub: Sub, sub': Sub, members: seq<Member>, kept: seq<Member>, key: string, i: nat)
    requires key in LIST_KEYS && Agree(sub, sub', KeyChildren(members, key)) && i < |Items(members, key)|
    requires i < |Items(kept, key)| && Project(Items(members, key)[i]) == Some(Items(kept, key)[i])
    ensures forall x :: sub(Items(members, key)[i], x) == sub'(Items(kept, key)[i], x)
  {
    assert KeyChildren(members, key)[i].node == Items(members, key)[i];
    assert AgreeOn(sub, sub', Items(members, key)[i]);
  }

  lemma {:induction false} ListProjected(members: seq<Member>, kept: seq<Member>, key: string)
    requires ProjectMembers(members) == Some(kept) && key in LIST_KEYS
    ensures |Items(kept, key)| == |Items(members, key)| && (Has(kept, key) <==> Has(members, key))
    ensures forall i | 0 <= i < |Items(members, key)| :: Project(Items(members, key)[i]) == Some(Items(kept, key)[i])
  {
    GetProjected(members, kept, key);
    if Has(members, key) {
      ProjectAllAt(Items(members, key), Items(kept, key));
    }
  }

  /** The subschemas of a list keyword before and after projection. */
  lemma {:induction false} ListsAgree(sub: Sub, sub': Sub, members: seq<Member>, kept: seq<Member>, key: string)
    requires ProjectMembers(members) == Some(kept) && key in LIST_KEYS
    requires Agree(sub, sub', ChildrenFrom(members, SCHEMA_KEYS))
    ensures |Items(kept, key)| == |Items(members, key)| && (Has(kept, key) <==> Has(members, key))
    ensures forall i, x | 0 <= i < |Items(members, key)| ::
              sub(Items(members, key)[i], x) == sub'(Items(kept, key)[i], x)
  {
    ListProjected(members, kept, key);
    AgreeFrom(sub, sub', members, SCHEMA_KEYS, key);
    forall i, x | 0 <= i < |Items(members, key)|
      ensures sub(Items(members, key)[i], x) == sub'(Items(kept, key)[i], x)
    {
      ListItemAgrees(sub, sub', members, kept, key, i);
    }
  }

  lemma {:induction false} MapProjected(members: seq<Member>, kept: seq<Member>, key: string)
    requires ProjectMembers(members) == Some(kept) && key in MAP_KEYS
    ensures |Named(kept, key)| == |Named(members, key)|
    ensures forall i | 0 <= i < |Named(members, key)| ::
              Named(kept, key)[i].key == Named(members, key)[i].key
              && Project(Named(members, key)[i].value) == Some(Named(kept, key)[i].value)
    ensures ProjectNamed(Named(members, key)) == Some(Named(kept, key))
  {
    GetProjected(members, kept, key);
    if Has(members, key) {
      ProjectNamedAt(Named(members, key), Named(kept, key));
    }
  }

  lemma {:induction false} SameNames(named: seq<Member>, named': seq<Member>)
    requires ProjectNamed(named) == Some(named')
    ensures forall name :: Has(named', name) <==> Has(named, name)
  {
    forall name ensures Has(named', name) <==> Has(named, name) {
      NamedGet(named, named', name);
      if Has(named, name) {
        ProjectNamedAt(named, named');
        var i := GetIsMember(named, name);
      }
    }
  }

  lemma {:induction false} MapItemAgrees(sub: Sub, sub': Sub, members: seq<Member>, kept: seq<Member>, key: string, i: nat)
    requires key in MAP_KEYS && Agree(sub, sub', KeyChildren(members, key)) && i < |Named(members, key)|
    requires i < |Named(kept, key)| && Project(Named(members, key)[i].value) == Some(Named(kept, key)[i].value)
    ensures forall x :: sub(Named(members, key)[i].value, x) == sub'(Named(kept, key)[i].value, x)
  {
    assert KeyChildren(members, key)[i].node == Named(members, key)[i].value;
    assert AgreeOn(sub, sub', Named(members, key)[i].value);
  }

  lemma {:induction false} MapsAgree(sub: Sub, sub': Sub, members: seq<Member>, kept: seq<Member>, key: string)
    requires ProjectMembers(members) == Some(kept) && key in MAP_KEYS
    requires Agree(sub, sub', ChildrenFrom(members, SCHEMA_KEYS))
    ensures |Named(kept, key)| == |Named(members, key)|
    ensures forall i | 0 <= i < |Named(members, key)| :: Named(kept, key)[i].key == Named(members, key)[i].key
    ensures forall i, x | 0 <= i < |Named(members, key)| ::
              sub(Named(members, key)[i].value, x) == sub'(Named(kept, key)[i].value, x)
    ensures forall name :: Has(Named(kept, key), name) <==> Has(Named(members, key), name)
  {
    MapProjected(members, kept, key);
    SameNames(Named(members, key), Named(kept, key));
    AgreeFrom(sub, sub', members, SCHEMA_KEYS, key);
    forall i, x | 0 <= i < |Named(members, key)|
      ensures sub(Named(members, key)[i].value, x) == sub'(Named(kept, key)[i].value, x)
    {
      MapItemAgrees(sub, sub', members, kept, key, i);
    }
  }

  /** Every keyword with one subschema holds a well-shaped one. */
  ghost predicate ShapedValues(members: seq<Member>) {
    forall key | key in VALUE_KEYS && Has(members, key) :: Shaped(Get(members, key).value)
  }

  lemma {:induction false} ValueKeysHoldOneSchema(key: string)
    requires key in VALUE_KEYS
    ensures key !in LIST_KEYS && key !in MAP_KEYS && key in SCHEMA_KEYS
  {
  }

  lemma {:induction false} ValueKeysAreKept(key: string)
    requires key in VALUE_KEYS
    ensures !IsAnnotation(key)
  {
  }

  /** A keyword holding one subschema. */
  lemma {:induction false} ValuesAgree(sub: Sub, sub': Sub, members: seq<Member>, kept: seq<Member>, key: string)
    requires ProjectMembers(members) == Some(kept) && ShapedValues(members) && key in VALUE_KEYS
    requires Agree(sub, sub', ChildrenFrom(members, SCHEMA_KEYS))
    ensures Has(kept, key) <==> Has(members, key)
    ensures Has(members, key) ==>
              forall x :: sub(Get(members, key).value, x) == sub'(Get(kept, key).value, x)
  {
    ValueKeysHoldOneSchema(key);
    ValueKeysAreKept(key);
    GetProjected(members, kept, key);
    AgreeFrom(sub, sub', members, SCHEMA_KEYS, key);
    if Has(members, key) {
      var schema := Get(members, key).value;
      assert KeyChildren(members, key)[0].node == schema;
      assert AgreeOn(sub, sub', schema);
    }
  }

  lemma {:induction false} CountsAgree(sub: Sub, sub': Sub, schemas: seq<Json>, schemas': seq<Json>, instance: Json)
    requires |schemas| == |schemas'|
    requires forall i | 0 <= i < |schemas| :: sub(schemas[i], Whole(instance)) == sub'(schemas'[i], Whole(instance))
    ensures Count(sub, schemas, instance) == Count(sub', schemas', instance)
  {
    if schemas != [] {
      forall i | 0 <= i < |schemas[1..]| ensures sub(schemas[1..][i], Whole(instance)) == sub'(schemas'[1..][i], Whole(instance)) {
        assert schemas[1..][i] == schemas[i + 1] && schemas'[1..][i] == schemas'[i + 1];
      }
      CountsAgree(sub, sub', schemas[1..], schemas'[1..], instance);
    }
  }

  lemma {:induction false} ItemCountsAgree(sub: Sub, sub': Sub, schema: Json, schema': Json, items: seq<Json>)
    requires forall x :: sub(schema, x) == sub'(schema', x)
    ensures CountItems(sub, schema, items) == CountItems(sub', schema', items)
  {
    if items != [] {
      ItemCountsAgree(sub, sub', schema, schema', items[1..]);
    }
  }

  lemma {:induction false} ListKeywordsAgree(sub: Sub, sub': Sub, members: seq<Member>, kept: seq<Member>, instance: Json)
    requires ProjectMembers(members) == Some(kept)
    requires Agree(sub, sub', ChildrenFrom(members, SCHEMA_KEYS))
    ensures AllOfHolds(sub, members, instance) == AllOfHolds(sub', kept, instance)
    ensures AnyOfHolds(sub, members, instance) == AnyOfHolds(sub', kept, instance)
    ensures OneOfHolds(sub, members, instance) == OneOfHolds(sub', kept, instance)
    ensures PrefixItemsHolds(sub, members, instance) == PrefixItemsHolds(sub', kept, instance)
    ensures |Items(kept, "prefixItems")| == |Items(members, "prefixItems")|
  {
    ListsAgree(sub, sub', members, kept, "allOf");
    ListsAgree(sub, sub', members, kept, "anyOf");
    ListsAgree(sub, sub', members, kept, "oneOf");
    ListsAgree(sub, sub', members, kept, "prefixItems");
    CountsAgree(sub, sub', Items(members, "oneOf"), Items(kept, "oneOf"), instance);
  }

  lemma {:induction false} NotAgrees(sub: Sub, sub': Sub, members: seq<Member>, kept: seq<Member>, instance: Json)
    requires ProjectMembers(members) == Some(kept) && ShapedValues(members)
    requires Agree(sub, sub', ChildrenFrom(members, SCHEMA_KEYS))
    ensures NotHolds(sub, members, instance) == NotHolds(sub', kept, instance)
  {
    ValuesAgree(sub, sub', members, kept, "not");
  }

  lemma {:induction false} IfAgrees(sub: Sub, sub': Sub, members: seq<Member>, kept: seq<Member>, instance: Json)
    requires ProjectMembers(members) == Some(kept) && ShapedValues(members)
    requires Agree(sub, sub', ChildrenFrom(members, SCHEMA_KEYS))
    ensures IfHolds(sub, members, instance) == IfHolds(sub', kept, instance)
  {
    ValuesAgree(sub, sub', members, kept, "if");
    ValuesAgree(sub, sub', members, kept, "then");
    ValuesAgree(sub, sub', members, kept, "else");
  }

  lemma {:induction false} ItemsAgrees(sub: Sub, sub': Sub, members: seq<Member>, kept: seq<Member>, instance: Json)
    requires ProjectMembers(members) == Some(kept) && ShapedValues(members)
    requires Agree(sub, sub', ChildrenFrom(members, SCHEMA_KEYS))
    ensures ItemsHolds(sub, members, instance) == ItemsHolds(sub', kept, instance)
  {
    ListsAgree(sub, sub', members, kept, "prefixItems");
    ValuesAgree(sub, sub', members, kept, "items");
  }

  lemma {:induction false} ContainsAgrees(sub: Sub, sub': Sub, members: seq<Member>, kept: seq<Member>, instance: Json)
    requires ProjectMembers(members) == Some(kept) && ShapedValues(members)
    requires Agree(sub, sub', ChildrenFrom(members, SCHEMA_KEYS))
    ensures ContainsHolds(sub, members, instance) == ContainsHolds(sub', kept, instance)
  {
    ValuesAgree(sub, sub', members, kept, "contains");
    LiteralSurvives(members, kept, "minContains");
    LiteralSurvives(members, kept, "maxContains");
    if instance.Arr? && Has(members, "contains") {
      ItemCountsAgree(sub, sub', Get(members, "contains").value, Get(kept, "contains").value, instance.items);
    }
  }

  lemma {:induction false} PropertiesAgree(sub: Sub, sub': Sub, members: seq<Member>, kept: seq<Member>, instance: Json)
    requires ProjectMembers(members) == Some(kept) && ShapedValues(members)
    requires Agree(sub, sub', ChildrenFrom(members, SCHEMA_KEYS))
    ensures PropertiesHolds(sub, members, instance) == PropertiesHolds(sub', kept, instance)
    ensures AdditionalHolds(sub, members, instance) == AdditionalHolds(sub', kept, instance)
  {
    MapsAgree(sub, sub', members, kept, "properties");
    ValuesAgree(sub, sub', members, kept, "additionalProperties");
  }

  lemma {:induction false} NamesAgree(sub: Sub, sub': Sub, members: seq<Member>, kept: seq<Member>, instance: Json)
    requires ProjectMembers(members) == Some(kept) && ShapedValues(members)
    requires Agree(sub, sub', ChildrenFrom(members, SCHEMA_KEYS))
    ensures PropertyNamesHolds(sub, members, instance) == PropertyNamesHolds(sub', kept, instance)
  {
    ValuesAgree(sub, sub', members, kept, "propertyNames");
  }

  lemma {:induction false} DependentSchemasAgree(sub: Sub, sub': Sub, members: seq<Member>, kept: seq<Member>, instance: Json)
    requires ProjectMembers(members) == Some(kept) && ShapedValues(members)
    requires Agree(sub, sub', ChildrenFrom(members, SCHEMA_KEYS))
    ensures DependentSchemasHolds(sub, members, instance) == DependentSchemasHolds(sub', kept, instance)
  {
    MapsAgree(sub, sub', members, kept, "dependentSchemas");
  }

  lemma {:induction false} AssertionsAreKept(key: string)
    requires key in ASSERTION_KEYS
    ensures !IsAnnotation(key)
  {
  }

  lemma {:induction false} AssertionsHoldNoSchema(key: string)
    requires key in ASSERTION_KEYS
    ensures key !in MAP_KEYS && key !in LIST_KEYS && key !in VALUE_KEYS
    ensures key != "required" && key != "dependentRequired" && key != "$ref"
  {
  }

  lemma {:induction false} AssertionFate(key: string, value: Json)
    requires key in ASSERTION_KEYS && !ProjectMember(Member(key, value)).Fail?
    ensures ProjectMember(Member(key, value)) == Keep(value)
  {
    AssertionsAreKept(key);
    AssertionsHoldNoSchema(key);
  }

  lemma {:induction false} LiteralSurvives(members: seq<Member>, kept: seq<Member>, key: string)
    requires ProjectMembers(members) == Some(kept) && key in ASSERTION_KEYS
    ensures Get(kept, key) == Get(members, key)
  {
    GetProjected(members, kept, key);
    if Has(members, key) {
      AssertionFate(key, Get(members, key).value);
    }
  }

  lemma {:induction false} RequirementSurvives(members: seq<Member>, kept: seq<Member>, key: string)
    requires ProjectMembers(members) == Some(kept) && (key == "required" || key == "dependentRequired")
    ensures Get(kept, key) == Get(members, key)
  {
    GetProjected(members, kept, key);
  }

  lemma {:induction false} RequiredAgrees(members: seq<Member>, kept: seq<Member>, instance: Json)
    requires ProjectMembers(members) == Some(kept)
    ensures RequiredHolds(members, instance) == RequiredHolds(kept, instance)
  {
    RequirementSurvives(members, kept, "required");
    RequirementSurvives(members, kept, "dependentRequired");
    assert Items(kept, "required") == Items(members, "required");
    assert Named(kept, "dependentRequired") == Named(members, "dependentRequired");
  }

  lemma {:induction false} LiteralsAgree(literal: Literal, members: seq<Member>, kept: seq<Member>, instance: Json)
    requires ProjectMembers(members) == Some(kept)
    ensures LiteralsHold(literal, members, instance) == LiteralsHold(literal, kept, instance)
  {
    forall key | key in ASSERTION_KEYS ensures Get(kept, key) == Get(members, key) {
      LiteralSurvives(members, kept, key);
    }
  }

  // ---------- the whole node, the whole schema ----------

  lemma {:induction false} DefinitionsProject(root: Json, root': Json, reference: Json)
    requires Project(root) == Some(root') && root.Obj?
    ensures Resolve(root', reference) == match Resolve(root, reference) case None => None case Some(t) => Project(t)
  {
    GetProjected(root.members, root'.members, "$defs");
    if LocalRefName(reference).Some? && Has(root.members, "$defs") {
      var named := Get(root.members, "$defs").value;
      var named' := Get(root'.members, "$defs").value;
      NamedGet(named.members, named'.members, LocalRefName(reference).value);
    }
  }

  lemma {:induction false} RefAgrees(sub: Sub, sub': Sub, root: Json, root': Json, members: seq<Member>, kept: seq<Member>,
                                     instance: Json)
    requires Project(root) == Some(root') && root.Obj? && ProjectMembers(members) == Some(kept)
    requires Successors(root, members).Some? && Agree(sub, sub', Successors(root, members).value)
    ensures RefHolds(sub, root, members, instance) == RefHolds(sub', root', kept, instance)
    ensures forall place :: EvaluatedByRef(sub, root, members, instance, place) == EvaluatedByRef(sub', root', kept, instance, place)
  {
    GetProjected(members, kept, "$ref");
    if Has(members, "$ref") {
      var reference := Get(members, "$ref").value;
      LocalRefIsCanonical(reference);
      assert Get(kept, "$ref") == Some(reference);
      DefinitionsProject(root, root', reference);
      var target := Resolve(root, reference).value;
      assert Successors(root, members).value[0].node == target;
      assert AgreeOn(sub, sub', target);
    }
  }

  /** The same children are evaluated. */
  lemma {:induction false} EvaluatedAgrees(sub: Sub, sub': Sub, root: Json, root': Json, members: seq<Member>, kept: seq<Member>,
                                           instance: Json, place: Place)
    requires Project(root) == Some(root') && root.Obj?
    requires ProjectMembers(members) == Some(kept) && ShapedValues(members)
    requires Successors(root, members).Some? && Agree(sub, sub', Successors(root, members).value)
    ensures Evaluated(sub, root, members, instance, place) == Evaluated(sub', root', kept, instance, place)
  {
    RefAgrees(sub, sub', root, root', members, kept, instance);
    ChildrenAgree(sub, sub', root, members);
    BranchEvaluates(sub, sub', members, kept, "allOf", instance, place);
    BranchEvaluates(sub, sub', members, kept, "anyOf", instance, place);
    BranchEvaluates(sub, sub', members, kept, "oneOf", instance, place);
    IfEvaluates(sub, sub', members, kept, instance, place);
    DependentEvaluates(sub, sub', members, kept, instance, place);
    HereEvaluates(sub, sub', members, kept, instance, place);
  }

  lemma {:induction false} BranchEvaluates(sub: Sub, sub': Sub, members: seq<Member>, kept: seq<Member>, key: string,
                                           instance: Json, place: Place)
    requires ProjectMembers(members) == Some(kept) && key in LIST_KEYS
    requires Agree(sub, sub', ChildrenFrom(members, SCHEMA_KEYS))
    ensures EvaluatedByBranch(sub, members, key, instance, place) == EvaluatedByBranch(sub', kept, key, instance, place)
  {
    ListsAgree(sub, sub', members, kept, key);
  }

  lemma {:induction false} IfEvaluates(sub: Sub, sub': Sub, members: seq<Member>, kept: seq<Member>, instance: Json, place: Place)
    requires ProjectMembers(members) == Some(kept) && ShapedValues(members)
    requires Agree(sub, sub', ChildrenFrom(members, SCHEMA_KEYS))
    ensures EvaluatedByIf(sub, members, instance, place) == EvaluatedByIf(sub', kept, instance, place)
  {
    ValuesAgree(sub, sub', members, kept, "if");
    ValuesAgree(sub, sub', members, kept, "then");
    ValuesAgree(sub, sub', members, kept, "else");
  }

  lemma {:induction false} DependentEvaluates(sub: Sub, sub': Sub, members: seq<Member>, kept: seq<Member>, instance: Json, place: Place)
    requires ProjectMembers(members) == Some(kept) && ShapedValues(members)
    requires Agree(sub, sub', ChildrenFrom(members, SCHEMA_KEYS))
    ensures EvaluatedByDependent(sub, members, instance, place) == EvaluatedByDependent(sub', kept, instance, place)
  {
    MapsAgree(sub, sub', members, kept, "dependentSchemas");
  }

  lemma {:induction false} HereEvaluates(sub: Sub, sub': Sub, members: seq<Member>, kept: seq<Member>, instance: Json, place: Place)
    requires ProjectMembers(members) == Some(kept) && ShapedValues(members)
    requires Agree(sub, sub', ChildrenFrom(members, SCHEMA_KEYS))
    ensures EvaluatedHere(sub, members, instance, place) == EvaluatedHere(sub', kept, instance, place)
  {
    MapsAgree(sub, sub', members, kept, "properties");
    ListsAgree(sub, sub', members, kept, "prefixItems");
    ValuesAgree(sub, sub', members, kept, "additionalProperties");
    ValuesAgree(sub, sub', members, kept, "items");
    ValuesAgree(sub, sub', members, kept, "contains");
  }

  lemma {:induction false} UnevaluatedAgree(sub: Sub, sub': Sub, root: Json, root': Json, members: seq<Member>, kept: seq<Member>,
                                            instance: Json)
    requires Project(root) == Some(root') && root.Obj?
    requires ProjectMembers(members) == Some(kept) && ShapedValues(members)
    requires Successors(root, members).Some? && Agree(sub, sub', Successors(root, members).value)
    ensures UnevaluatedItemsHolds(sub, root, members, instance) == UnevaluatedItemsHolds(sub', root', kept, instance)
    ensures UnevaluatedPropertiesHolds(sub, root, members, instance) == UnevaluatedPropertiesHolds(sub', root', kept, instance)
    ensures forall place :: NodeEvaluates(sub, root, members, instance, place) == NodeEvaluates(sub', root', kept, instance, place)
  {
    ChildrenAgree(sub, sub', root, members);
    ValuesAgree(sub, sub', members, kept, "unevaluatedItems");
    ValuesAgree(sub, sub', members, kept, "unevaluatedProperties");
    forall place ensures Evaluated(sub, root, members, instance, place) == Evaluated(sub', root', kept, instance, place) {
      EvaluatedAgrees(sub, sub', root, root', members, kept, instance, place);
    }
  }

  lemma {:induction false} NodeAgrees(literal: Literal, sub: Sub, sub': Sub, root: Json, root': Json,
                                      members: seq<Member>, kept: seq<Member>, question: Question)
    requires Project(root) == Some(root') && root.Obj?
    requires ProjectMembers(members) == Some(kept) && ShapedValues(members)
    requires Successors(root, members).Some? && Agree(sub, sub', Successors(root, members).value)
    ensures NodeAnswers(literal, sub, root, members, question) == NodeAnswers(literal, sub', root', kept, question)
  {
    var instance := question.instance;
    RefAgrees(sub, sub', root, root', members, kept, instance);
    ChildrenAgree(sub, sub', root, members);
    ListKeywordsAgree(sub, sub', members, kept, instance);
    NotAgrees(sub, sub', members, kept, instance);
    IfAgrees(sub, sub', members, kept, instance);
    ItemsAgrees(sub, sub', members, kept, instance);
    ContainsAgrees(sub, sub', members, kept, instance);
    PropertiesAgree(sub, sub', members, kept, instance);
    NamesAgree(sub, sub', members, kept, instance);
    DependentSchemasAgree(sub, sub', members, kept, instance);
    RequiredAgrees(members, kept, instance);
    LiteralsAgree(literal, members, kept, instance);
    UnevaluatedAgree(sub, sub', root, root', members, kept, instance);
  }

  lemma {:induction false} ChildrenAgree(sub: Sub, sub': Sub, root: Json, members: seq<Member>)
    requires Successors(root, members).Some? && Agree(sub, sub', Successors(root, members).value)
    ensures Agree(sub, sub', ChildrenFrom(members, SCHEMA_KEYS))
  {
    var all, children := Successors(root, members).value, ChildrenFrom(members, SCHEMA_KEYS);
    forall i | 0 <= i < |children| ensures Project(children[i].node).Some? && AgreeOn(sub, sub', children[i].node) {
      assert children[i] == all[|all| - |children| + i];
    }
  }

  lemma {:induction false} KeyChildrenShaped(members: seq<Member>, key: string, i: nat)
    requires Shaped(Obj(members)) && Validated(Obj(members)) && key in SCHEMA_KEYS && i < |KeyChildren(members, key)|
    ensures Shaped(KeyChildren(members, key)[i].node) && Validated(KeyChildren(members, key)[i].node)
  {
    var j := GetIsMember(members, key);
    assert ShapedMember(members[j]) && Validated(members[j].value);
    assert key in MAP_KEYS || key in LIST_KEYS || key in VALUE_KEYS;
  }

  lemma {:induction false} ChildrenShaped(members: seq<Member>, keys: seq<string>, i: nat)
    requires Shaped(Obj(members)) && Validated(Obj(members)) && (forall key | key in keys :: key in SCHEMA_KEYS)
    requires i < |ChildrenFrom(members, keys)|
    ensures Shaped(ChildrenFrom(members, keys)[i].node) && Validated(ChildrenFrom(members, keys)[i].node)
  {
    var n := |KeyChildren(members, keys[0])|;
    if i < n {
      KeyChildrenShaped(members, keys[0], i);
    } else {
      ChildrenShaped(members, keys[1..], i - n);
    }
  }

  lemma {:induction false} DefinitionShaped(root: Json, reference: Json)
    requires root.Obj? && Shaped(root) && Validated(root) && Resolve(root, reference).Some?
    ensures Shaped(Resolve(root, reference).value) && Validated(Resolve(root, reference).value)
  {
    var i := GetIsMember(root.members, "$defs");
    assert ShapedMember(root.members[i]) && Validated(root.members[i].value);
    var j := GetIsMember(root.members[i].value.members, LocalRefName(reference).value);
  }

  /** Every subschema of a validated schema is one, reference targets included. */
  lemma {:induction false} SuccessorShaped(root: Json, members: seq<Member>, i: nat)
    requires root.Obj? && Shaped(root) && Validated(root) && Shaped(Obj(members)) && Validated(Obj(members))
    requires Successors(root, members).Some? && i < |Successors(root, members).value|
    ensures Shaped(Successors(root, members).value[i].node) && Validated(Successors(root, members).value[i].node)
  {
    var all, children := Successors(root, members).value, ChildrenFrom(members, SCHEMA_KEYS);
    var skip := |all| - |children|;
    if i < skip {
      DefinitionShaped(root, Get(members, "$ref").value);
    } else {
      ChildrenShaped(members, SCHEMA_KEYS, i - skip);
      assert all[i] == children[i - skip];
    }
  }

  lemma {:induction false} ValuesAreShaped(members: seq<Member>)
    requires Shaped(Obj(members))
    ensures ShapedValues(members)
  {
    forall key | key in VALUE_KEYS && Has(members, key) ensures Shaped(Get(members, key).value) {
      var i := GetIsMember(members, key);
      assert ShapedMember(members[i]);
    }
  }

  lemma {:induction false} ChildReady(root: Json, members: seq<Member>, u: Unfolding, i: nat)
    requires root.Obj? && Shaped(root) && Validated(root) && Shaped(Obj(members)) && Validated(Obj(members))
    requires IsUnfolding(root, Obj(members), u) && i < |u.children|
    ensures var child := Successors(root, members).value[i].node;
            && Shaped(child) && Validated(child) && Project(child).Some?
            && IsUnfolding(root, child, u.children[i]) && Size(u.children[i]) < Size(u)
  {
    SuccessorShaped(root, members, i);
    ProjectTotal(Successors(root, members).value[i].node);
    PartOfSizes(u.children, i);
  }

  lemma {:induction false} ChildAgrees(literal: Literal, root: Json, child: Json, v: Unfolding, fuel: nat, fuel': nat)
    requires root.Obj? && Shaped(root) && Validated(root) && Shaped(child) && Validated(child)
    requires IsUnfolding(root, child, v) && Size(v) <= fuel && Size(v) <= fuel'
    requires Project(root).Some? && Project(child).Some?
    ensures AgreeOn(Reader(literal, root, fuel), Reader(literal, Project(root).value, fuel'), child)
    decreases v, 2
  {
    var sub, sub' := Reader(literal, root, fuel), Reader(literal, Project(root).value, fuel');
    var projected := Project(child).value;
    forall x ensures sub(child, x) == sub'(projected, x) {
      SchemaAgrees(literal, root, child, v, fuel, fuel', x);
    }
  }

  lemma {:induction false} ChildrenRead(literal: Literal, root: Json, members: seq<Member>, u: Unfolding, fuel: nat, fuel': nat)
    requires root.Obj? && Shaped(root) && Validated(root) && Shaped(Obj(members)) && Validated(Obj(members))
    requires IsUnfolding(root, Obj(members), u) && Size(u) <= fuel && Size(u) <= fuel' && Project(root).Some?
    ensures Agree(Reader(literal, root, fuel - 1), Reader(literal, Project(root).value, fuel' - 1), Successors(root, members).value)
    decreases u, 0
  {
    var children := Successors(root, members).value;
    var sub, sub' := Reader(literal, root, fuel - 1), Reader(literal, Project(root).value, fuel' - 1);
    forall i | 0 <= i < |children| ensures Project(children[i].node).Some? && AgreeOn(sub, sub', children[i].node) {
      ChildReady(root, members, u, i);
      ChildAgrees(literal, root, children[i].node, u.children[i], fuel - 1, fuel' - 1);
    }
  }

  /** A node with a finite unfolding means the same before and after projection, read
      with any two amounts of fuel that cover the unfolding. */
  lemma {:induction false} SchemaAgrees(literal: Literal, root: Json, schema: Json, u: Unfolding, fuel: nat, fuel': nat,
                                        question: Question)
    requires root.Obj? && Shaped(root) && Validated(root) && Shaped(schema) && Validated(schema)
    requires IsUnfolding(root, schema, u) && Size(u) <= fuel && Size(u) <= fuel'
    requires Project(root).Some? && Project(schema).Some?
    ensures Answers(literal, root, schema, question, fuel)
         == Answers(literal, Project(root).value, Project(schema).value, question, fuel')
    decreases u, 1
  {
    if schema.Obj? {
      var members, kept, root' := schema.members, Project(schema).value.members, Project(root).value;
      ChildrenRead(literal, root, members, u, fuel, fuel');
      ValuesAreShaped(members);
      NodeAgrees(literal, Reader(literal, root, fuel - 1), Reader(literal, root', fuel' - 1), root, root', members, kept, question);
    }
  }

  /** What an accepted schema says of an instance. */
  predicate Accepts(literal: Literal, schema: Json, instance: Json) {
    Valid(literal, schema, schema, instance, MAX_EXPANDED_NODES)
  }

  /** Projection preserves meaning: for every schema that passes the checks, every
      instance and every reading of the value assertions, the instance is valid under
      the schema exactly when it is valid under the projected schema, and no amount of
      further unfolding changes either verdict. */
  lemma {:induction false} ProjectionPreservesMeaning(literal: Literal, schema: Json, instance: Json, fuel: nat)
    requires schema.Obj? && Shaped(schema) && Validated(schema) && Acceptable(schema)
    requires fuel >= MAX_EXPANDED_NODES
    ensures Project(schema).Some?
    ensures Accepts(literal, schema, instance) <==> Accepts(literal, Project(schema).value, instance)
    ensures Valid(literal, schema, schema, instance, fuel) <==> Accepts(literal, schema, instance)
    ensures Valid(literal, Project(schema).value, Project(schema).value, instance, fuel)
       <==> Accepts(literal, Project(schema).value, instance)
  {
    ProjectTotal(schema);
    var u :| IsUnfolding(schema, schema, u) && Size(u) <= MAX_EXPANDED_NODES && Narrow(schema, schema, u, 1);
    SchemaAgrees(literal, schema, schema, u, MAX_EXPANDED_NODES, MAX_EXPANDED_NODES, Whole(instance));
    SchemaAgrees(literal, schema, schema, u, fuel, MAX_EXPANDED_NODES, Whole(instance));
    SchemaAgrees(literal, schema, schema, u, MAX_EXPANDED_NODES, fuel, Whole(instance));
  }
}
