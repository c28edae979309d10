/** The branch limit of the complexity check (k2do/agent/tools/mcp.py, 441-488), said of the
    paths through a schema and of the lengths of its branch lists alone. */
module SchemaBranching {
  import opened Prelude
  import opened Json
  import opened SchemaKeywords
  import opened SchemaComplexity

  /** How a path goes from a schema object to one of its subschemas. */
  datatype Turn =
    | Reference                         // to the definition that `$ref` names
    | Named(key: string, index: nat)    // into a map of schemas
    | Listed(key: string, index: nat)   // into a list of schemas
    | Single(key: string)               // to the one schema of a keyword

  datatype Hop = Hop(turn: Turn, node: Json)

  const MAPS: seq<string> := ["$defs", "dependentSchemas", "properties"]
  const BRANCHES: seq<string> := ["allOf", "anyOf", "oneOf"]
  const LISTS: seq<string> := ["allOf", "anyOf", "oneOf", "prefixItems"]
  const SINGLES: seq<string> :=
    ["additionalProperties", "contains", "else", "if", "items", "not", "propertyNames", "then", "unevaluatedItems",
     "unevaluatedProperties"]

  /** `child` is what the turn leads to from the object with these members. */
  predicate Leads(root: Json, members: seq<Member>, turn: Turn, child: Json) {
    match turn
    case Reference =>
      Has(members, "$ref") && !Get(members, "$ref").value.Null? && Resolve(root, Get(members, "$ref").value) == Some(child)
    case Named(key, i) =>
      key in MAPS && (match Get(members, key) case Some(Obj(named)) => i < |named| && named[i].value == child case _ => false)
    case Listed(key, i) =>
      key in LISTS + SINGLES && (match Get(members, key) case Some(Arr(items)) => i < |items| && items[i] == child case _ => false)
    case Single(key) => key in SINGLES && Get(members, key) == Some(child) && (child.Obj? || child.Bool?)
  }

  /** What the turn multiplies the branching by: the length of a branch list. */
  function Width(members: seq<Member>, turn: Turn): nat {
    if turn.Listed? && turn.key in BRANCHES then
      (match Get(members, turn.key) case Some(Arr(items)) => |items| case _ => 1)
    else 1
  }

  ghost predicate IsPath(root: Json, node: Json, path: seq<Hop>)
    decreases |path|
  {
    path != [] ==>
      node.Obj? && Leads(root, node.members, path[0].turn, path[0].node) && IsPath(root, path[0].node, path[1..])
  }

  /** The product of the lengths of the branch lists that a path enters. */
  function Product(node: Json, path: seq<Hop>): nat
    decreases |path|
  {
    if path == [] || !node.Obj? then 1 else Width(node.members, path[0].turn) * Product(path[0].node, path[1..])
  }

  /** No path from the node enters branch lists that multiply to more than 32. */
  ghost predicate PathsNarrow(root: Json, node: Json, product: nat) {
    forall path :: IsPath(root, node, path) ==> product * Product(node, path) <= 32
  }

  // ---------- turns and visited subschemas ----------

  lemma {:induction false} SameKeys(key: string)
    ensures key in MAP_KEYS <==> key in MAPS
    ensures key in LIST_KEYS <==> key in LISTS
    ensures key in VALUE_KEYS <==> key in SINGLES
    ensures key in BRANCH_KEYS <==> key in BRANCHES
  {
  }

  /** The turn behind the `i`-th subschema of one keyword. */
  function KeyTurn(members: seq<Member>, key: string, i: nat): Turn {
    match Get(members, key)
    case Some(Arr(_)) => Listed(key, i)
    case Some(Obj(_)) => if key in MAP_KEYS then Named(key, i) else Single(key)
    case _ => Single(key)
  }

  lemma {:induction false} ListWidth(members: seq<Member>, key: string, items: seq<Json>, i: nat)
    requires Get(members, key) == Some(Arr(items)) && i < |items| && key !in MAP_KEYS
    ensures i < |KeyChildren(members, key)| == |items| && KeyChildren(members, key)[i].node == items[i]
    ensures KeyChildren(members, key)[i].factor == Width(members, Listed(key, i))
  {
    SameKeys(key);
    assert KeyChildren(members, key)[i] == Child(items[i], Factor(key, |items|), Below([Key(key), Index(i)]));
    assert Width(members, Listed(key, i)) == if key in BRANCHES then |items| else 1;
  }

  lemma {:induction false} KeysApart(key: string)
    ensures key in LISTS || key in SINGLES ==> key !in MAP_KEYS
    ensures key in SINGLES ==> key !in LIST_KEYS
    ensures key in MAPS || key in LISTS || key in SINGLES <==> key in SCHEMA_KEYS
  {
  }

  lemma {:induction false} KeyTurnLeads(root: Json, members: seq<Member>, key: string, i: nat)
    requires key in SCHEMA_KEYS && i < |KeyChildren(members, key)|
    ensures var child := KeyChildren(members, key)[i];
            && Leads(root, members, KeyTurn(members, key, i), child.node)
            && child.factor == Width(members, KeyTurn(members, key, i))
  {
    SameKeys(key);
    KeysApart(key);
    match Get(members, key) {
      case Some(Arr(items)) => ListWidth(members, key, items, i);
      case _ =>
    }
  }

  lemma {:induction false} TurnIsKeyChild(root: Json, members: seq<Member>, turn: Turn, child: Json)
    requires !turn.Reference? && Leads(root, members, turn, child)
    ensures var i := if turn.Single? then 0 else turn.index;
            && turn.key in SCHEMA_KEYS && i < |KeyChildren(members, turn.key)|
            && KeyChildren(members, turn.key)[i].node == child
            && KeyChildren(members, turn.key)[i].factor == Width(members, turn)
  {
    SameKeys(turn.key);
    KeysApart(turn.key);
    if turn.Listed? {
      ListWidth(members, turn.key, Get(members, turn.key).value.items, turn.index);
    }
  }

  lemma {:induction false} ChildTurn(root: Json, members: seq<Member>, keys: seq<string>, i: nat) returns (turn: Turn)
    requires (forall key | key in keys :: key in SCHEMA_KEYS) && i < |ChildrenFrom(members, keys)|
    ensures var child := ChildrenFrom(members, keys)[i];
            Leads(root, members, turn, child.node) && child.factor == Width(members, turn)
  {
    var n := |KeyChildren(members, keys[0])|;
    if i < n {
      KeyTurnLeads(root, members, keys[0], i);
      turn := KeyTurn(members, keys[0], i);
    } else {
      turn := ChildTurn(root, members, keys[1..], i - n);
    }
  }

  lemma {:induction false} KeyIndex(members: seq<Member>, keys: seq<string>, key: string, i: nat) returns (j: nat)
    requires key in keys && i < |KeyChildren(members, key)|
    ensures j < |ChildrenFrom(members, keys)| && ChildrenFrom(members, keys)[j] == KeyChildren(members, key)[i]
  {
    if keys[0] == key {
      j := i;
    } else {
      j := KeyIndex(members, keys[1..], key, i);
      j := j + |KeyChildren(members, keys[0])|;
    }
  }

  /** Every visited subschema is behind a turn, with the width of that turn. */
  lemma {:induction false} SuccessorTurn(root: Json, members: seq<Member>, i: nat) returns (turn: Turn)
    requires Successors(root, members).Some? && i < |Successors(root, members).value|
    ensures var child := Successors(root, members).value[i];
            Leads(root, members, turn, child.node) && child.factor == Width(members, turn)
  {
    var all, children := Successors(root, members).value, ChildrenFrom(members, SCHEMA_KEYS);
    var skip := |all| - |children|;
    if i < skip {
      turn := Reference;
    } else {
      turn := ChildTurn(root, members, SCHEMA_KEYS, i - skip);
      assert all[i] == children[i - skip];
    }
  }

  lemma {:induction false} LastSuccessors(root: Json, members: seq<Member>, j: nat) returns (i: nat)
    requires Successors(root, members).Some? && j < |ChildrenFrom(members, SCHEMA_KEYS)|
    ensures i < |Successors(root, members).value| && Successors(root, members).value[i] == ChildrenFrom(members, SCHEMA_KEYS)[j]
  {
    var all, children := Successors(root, members).value, ChildrenFrom(members, SCHEMA_KEYS);
    i := |all| - |children| + j;
  }

  /** And every turn leads to a visited subschema. */
  lemma {:induction false} TurnSuccessor(root: Json, members: seq<Member>, turn: Turn, child: Json) returns (i: nat)
    requires Successors(root, members).Some? && Leads(root, members, turn, child)
    ensures i < |Successors(root, members).value|
    ensures Successors(root, members).value[i].node == child && Successors(root, members).value[i].factor == Width(members, turn)
  {
    if turn.Reference? {
      i := 0;
    } else {
      TurnIsKeyChild(root, members, turn, child);
      var j := KeyIndex(members, SCHEMA_KEYS, turn.key, if turn.Single? then 0 else turn.index);
      i := LastSuccessors(root, members, j);
    }
  }

  // ---------- narrow unfoldings and narrow paths ----------

  lemma {:induction false} Regroup(a: nat, b: nat, c: nat)
    ensures a * b * c == a * (b * c)
  {
  }

  lemma {:induction false} PathsOfNarrow(root: Json, node: Json, u: Unfolding, product: nat, path: seq<Hop>)
    requires IsUnfolding(root, node, u) && Narrow(root, node, u, product) && product <= 32 && IsPath(root, node, path)
    ensures product * Product(node, path) <= 32
    decreases |path|
  {
    if path != [] {
      var width := Width(node.members, path[0].turn);
      var i := TurnSuccessor(root, node.members, path[0].turn, path[0].node);
      NarrowPart(root, node.members, product, u, i);
      PathsOfNarrow(root, path[0].node, u.children[i], product * width, path[1..]);
      Regroup(product, width, Product(path[0].node, path[1..]));
    }
  }

  lemma {:induction false} FirstHop(root: Json, members: seq<Member>, turn: Turn, child: Json, path: seq<Hop>)
    requires Leads(root, members, turn, child) && IsPath(root, child, path)
    ensures IsPath(root, Obj(members), [Hop(turn, child)] + path)
    ensures Product(Obj(members), [Hop(turn, child)] + path) == Width(members, turn) * Product(child, path)
  {
    assert ([Hop(turn, child)] + path)[1..] == path;
  }

  lemma {:induction false} PathsBelow(root: Json, members: seq<Member>, product: nat, turn: Turn, child: Json)
    requires PathsNarrow(root, Obj(members), product) && Leads(root, members, turn, child)
    ensures product * Width(members, turn) <= 32 && PathsNarrow(root, child, product * Width(members, turn))
  {
    var width := Width(members, turn);
    forall path | IsPath(root, child, path) ensures product * width * Product(child, path) <= 32 {
      FirstHop(root, members, turn, child, path);
      Regroup(product, width, Product(child, path));
    }
    assert IsPath(root, child, []) && Product(child, []) == 1;
  }

  lemma {:induction false} NarrowOfPaths(root: Json, node: Json, u: Unfolding, product: nat)
    requires IsUnfolding(root, node, u) && PathsNarrow(root, node, product)
    ensures Narrow(root, node, u, product)
    decreases u
  {
    if node.Obj? {
      var cs := Successors(root, node.members).value;
      forall i | 0 <= i < |cs|
        ensures product * cs[i].factor <= MAX_BRANCH_PRODUCT && Narrow(root, cs[i].node, u.children[i], product * cs[i].factor)
      {
        var turn := SuccessorTurn(root, node.members, i);
        PathsBelow(root, node.members, product, turn, cs[i].node);
        NarrowOfPaths(root, cs[i].node, u.children[i], product * cs[i].factor);
      }
    }
  }

  ghost predicate UnfoldsSmall(root: Json) {
    exists u :: IsUnfolding(root, root, u) && Size(u) <= 512
  }

  /** The complexity check accepts exactly the schemas with a finite unfolding of at most 512
      nodes, in which no path enters branch lists whose lengths multiply to more than 32. */
  lemma {:induction false} AcceptedExactly(root: Json)
    ensures Acceptable(root) <==> UnfoldsSmall(root) && PathsNarrow(root, root, 1)
  {
    if Acceptable(root) {
      var u :| IsUnfolding(root, root, u) && Size(u) <= MAX_EXPANDED_NODES && Narrow(root, root, u, 1);
      forall path | IsPath(root, root, path) ensures 1 * Product(root, path) <= 32 {
        PathsOfNarrow(root, root, u, 1, path);
      }
    }
    if UnfoldsSmall(root) && PathsNarrow(root, root, 1) {
      var u :| IsUnfolding(root, root, u) && Size(u) <= 512;
      NarrowOfPaths(root, root, u, 1);
      assert IsUnfolding(root, root, u) && Size(u) <= MAX_EXPANDED_NODES && Narrow(root, root, u, 1);
    }
  }

  /** However its subschemas look, a branch list of more than 32 entries is refused. */
  lemma {:induction false} WideListIsRejected(members: seq<Member>, key: string, items: seq<Json>)
    requires key in BRANCHES && Get(members, key) == Some(Arr(items)) && |items| > 32
    ensures !Acceptable(Obj(members))
  {
    var root := Obj(members);
    AcceptedExactly(root);
    if PathsNarrow(root, root, 1) {
      PathsBelow(root, members, 1, Listed(key, 0), items[0]);
    }
  }
}
