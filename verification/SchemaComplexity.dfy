/** The complexity check on MCP tool schemas (k2do/agent/tools/mcp.py, 406-490): a
    recursive visit with a shared node counter, proved to accept exactly the schemas
    whose full unfolding is finite, small and narrow. */
module SchemaComplexity {
  import opened Prelude
  import opened Json
  import opened SchemaKeywords

  const MAX_EXPANDED_NODES := 512
  const MAX_BRANCH_PRODUCT := 32

  // ---------- the subschemas of a node ----------

  /** Where a child sits: at the root's definitions, or below its parent. */
  datatype Place = Definition(name: string) | Below(suffix: Path)

  /** A subschema to visit; `factor` is what its keyword multiplies the branching by. */
  datatype Child = Child(node: Json, factor: nat, place: Place)

  const SCHEMA_KEYS: seq<string> := MAP_KEYS + LIST_KEYS + VALUE_KEYS

  function Factor(key: string, children: nat): nat {
    if key in BRANCH_KEYS && children > 1 then children else 1
  }

  function KeyChildren(members: seq<Member>, key: string): seq<Child> {
    match Get(members, key)
    case Some(Obj(named)) =>
      if key in MAP_KEYS then
        seq(|named|, i requires 0 <= i < |named| => Child(named[i].value, 1, Below([Key(key), Key(named[i].key)])))
      else if key in LIST_KEYS then []
      else [Child(Obj(named), 1, Below([Key(key)]))]
    case Some(Arr(items)) =>
      if key in MAP_KEYS then []
      else seq(|items|, i requires 0 <= i < |items| =>
                 Child(items[i], Factor(key, |items|), Below([Key(key), Index(i)])))
    case Some(Bool(b)) =>
      if key in MAP_KEYS || key in LIST_KEYS then [] else [Child(Bool(b), 1, Below([Key(key)]))]
    case _ => []
  }

  function ChildrenFrom(members: seq<Member>, keys: seq<string>): seq<Child> {
    if keys == [] then [] else KeyChildren(members, keys[0]) + ChildrenFrom(members, keys[1..])
  }

  /** Every subschema `visit` descends into, the `$ref` target first; None when the
      reference does not resolve. */
  function Successors(root: Json, members: seq<Member>): Option<seq<Child>> {
    var children := ChildrenFrom(members, SCHEMA_KEYS);
    match Get(members, "$ref")
    case None => Some(children)
    case Some(Null) => Some(children)
    case Some(reference) =>
      match Resolve(root, reference)
      case None => None
      case Some(target) => Some([Child(target, 1, Definition(LocalRefName(reference).value))] + children)
  }

  // ---------- unfoldings ----------

  /** A finite tree with one branch per subschema: references followed, nothing shared. */
  datatype Unfolding = Unfolding(children: seq<Unfolding>)

  predicate IsUnfolding(root: Json, node: Json, u: Unfolding)
    decreases u
  {
    match node
    case Bool(_) => u.children == []
    case Obj(members) =>
      (match Successors(root, members)
       case None => false
       case Some(cs) =>
         |u.children| == |cs| && forall i | 0 <= i < |cs| :: IsUnfolding(root, cs[i].node, u.children[i]))
    case _ => false
  }

  function Size(u: Unfolding): nat {
    1 + Sizes(u.children)
  }

  function Sizes(us: seq<Unfolding>): nat {
    if us == [] then 0 else Sizes(us[..|us| - 1]) + Size(us[|us| - 1])
  }

  /** On every branch the products of the branching keywords stay within the limit. */
  predicate Narrow(root: Json, node: Json, u: Unfolding, product: nat)
    decreases u
  {
    match node
    case Obj(members) =>
      (match Successors(root, members)
       case None => false
       case Some(cs) =>
         && |u.children| == |cs|
         && forall i | 0 <= i < |cs| ::
              product * cs[i].factor <= MAX_BRANCH_PRODUCT
              && Narrow(root, cs[i].node, u.children[i], product * cs[i].factor))
    case _ => true
  }

  ghost predicate Acceptable(root: Json) {
    exists u :: IsUnfolding(root, root, u) && Size(u) <= MAX_EXPANDED_NODES && Narrow(root, root, u, 1)
  }

  /** A node unfolds in one way only. */
  lemma {:induction false} UnfoldingIsUnique(root: Json, node: Json, u: Unfolding, v: Unfolding)
    requires IsUnfolding(root, node, u) && IsUnfolding(root, node, v)
    ensures u == v
    decreases u
  {
    if node.Obj? {
      var cs := Successors(root, node.members).value;
      forall i | 0 <= i < |cs| ensures u.children[i] == v.children[i] {
        UnfoldingIsUnique(root, cs[i].node, u.children[i], v.children[i]);
      }
    }
  }

  lemma {:induction false} PartOfSizes(us: seq<Unfolding>, i: nat)
    requires i < |us|
    ensures Sizes(us[..i]) + Size(us[i]) <= Sizes(us)
  {
    if i == |us| - 1 {
      assert us[..i] == us[..|us| - 1];
    } else {
      var front := us[..|us| - 1];
      PartOfSizes(front, i);
      assert front[..i] == us[..i];
    }
  }

  // ---------- recursion has no finite unfolding ----------

  predicate IsChild(root: Json, parent: Json, child: Json) {
    && parent.Obj? && Successors(root, parent.members).Some?
    && exists i | 0 <= i < |Successors(root, parent.members).value| ::
         Successors(root, parent.members).value[i].node == child
  }

  ghost predicate Chain(root: Json, trail: seq<Json>) {
    forall k | 0 <= k < |trail| - 1 :: IsChild(root, trail[k], trail[k + 1])
  }

  lemma {:induction false} ChildUnfolding(root: Json, parent: Json, child: Json, u: Unfolding) returns (v: Unfolding)
    requires IsUnfolding(root, parent, u) && IsChild(root, parent, child)
    ensures IsUnfolding(root, child, v) && Size(v) < Size(u)
  {
    var cs := Successors(root, parent.members).value;
    var i :| 0 <= i < |cs| && cs[i].node == child;
    v := u.children[i];
    PartOfSizes(u.children, i);
  }

  lemma {:induction false} ChainTail(root: Json, trail: seq<Json>)
    requires trail != [] && Chain(root, trail)
    ensures Chain(root, trail[1..])
  {
    var tail := trail[1..];
    forall k | 0 <= k < |tail| - 1 ensures IsChild(root, tail[k], tail[k + 1]) {
      assert IsChild(root, trail[k + 1], trail[k + 1 + 1]);
    }
  }

  lemma {:induction false} LastUnfolding(root: Json, trail: seq<Json>, u: Unfolding) returns (v: Unfolding)
    requires trail != [] && Chain(root, trail) && IsUnfolding(root, trail[0], u)
    ensures IsUnfolding(root, trail[|trail| - 1], v)
    ensures Size(v) + |trail| <= Size(u) + 1
    decreases |trail|
  {
    if |trail| == 1 {
      v := u;
    } else {
      assert IsChild(root, trail[0], trail[0 + 1]);
      var w := ChildUnfolding(root, trail[0], trail[1], u);
      ChainTail(root, trail);
      v := LastUnfolding(root, trail[1..], w);
    }
  }

  /** A node that is reached from itself has no finite unfolding. */
  lemma {:induction false} CycleHasNoUnfolding(root: Json, trail: seq<Json>, u: Unfolding)
    requires |trail| > 1 && Chain(root, trail) && trail[0] == trail[|trail| - 1]
    ensures !IsUnfolding(root, trail[0], u)
    decreases Size(u)
  {
    if IsUnfolding(root, trail[0], u) {
      var v := LastUnfolding(root, trail, u);
      CycleHasNoUnfolding(root, trail, v);
    }
  }

  // ---------- positions ----------

  function PlaceOf(parent: Path, place: Place): Path {
    match place
    case Definition(name) => [Key("$defs"), Key(name)]
    case Below(suffix) => parent + suffix
  }

  lemma {:induction false} AtStep(members: seq<Member>, key: string)
    ensures At(Obj(members), [Key(key)]) == Get(members, key)
  {
    assert [Key(key)][1..] == [];
  }

  lemma {:induction false} AtNamed(members: seq<Member>, key: string, named: seq<Member>, name: string)
    requires Get(members, key) == Some(Obj(named))
    ensures At(Obj(members), [Key(key), Key(name)]) == Get(named, name)
  {
    AtStep(named, name);
    assert [Key(key), Key(name)][1..] == [Key(name)];
  }

  lemma {:induction false} AtIndexed(members: seq<Member>, key: string, items: seq<Json>, i: nat)
    requires Get(members, key) == Some(Arr(items)) && i < |items|
    ensures At(Obj(members), [Key(key), Index(i)]) == Some(items[i])
  {
    assert [Index(i)][1..] == [];
    assert At(Arr(items), [Index(i)]) == At(items[i], []);
    assert [Key(key), Index(i)][1..] == [Index(i)];
  }

  lemma {:induction false} KeyChildAt(members: seq<Member>, key: string, i: nat)
    requires WellFormed(Obj(members)) && i < |KeyChildren(members, key)|
    ensures KeyChildren(members, key)[i].place.Below?
    ensures At(Obj(members), KeyChildren(members, key)[i].place.suffix) == Some(KeyChildren(members, key)[i].node)
  {
    var j := GetIsMember(members, key);
    var value := members[j].value;
    assert WellFormed(value);
    AtStep(members, key);
    if value.Obj? && key in MAP_KEYS {
      GetAt(value.members, i);
      AtNamed(members, key, value.members, value.members[i].key);
    } else if value.Arr? {
      AtIndexed(members, key, value.items, i);
    }
  }

  lemma {:induction false} ChildrenFromAt(members: seq<Member>, keys: seq<string>, i: nat)
    requires WellFormed(Obj(members)) && i < |ChildrenFrom(members, keys)|
    ensures ChildrenFrom(members, keys)[i].place.Below?
    ensures At(Obj(members), ChildrenFrom(members, keys)[i].place.suffix) == Some(ChildrenFrom(members, keys)[i].node)
  {
    var n := |KeyChildren(members, keys[0])|;
    if i < n {
      KeyChildAt(members, keys[0], i);
    } else {
      ChildrenFromAt(members, keys[1..], i - n);
    }
  }

  /** Every child sits in the document where its place says. */
  lemma {:induction false} ChildAt(root: Json, path: Path, members: seq<Member>, i: nat)
    requires WellFormed(root) && At(root, path) == Some(Obj(members)) && Successors(root, members).Some?
    requires i < |Successors(root, members).value|
    ensures At(root, PlaceOf(path, Successors(root, members).value[i].place))
         == Some(Successors(root, members).value[i].node)
  {
    AtWellFormed(root, path);
    var cs := Successors(root, members).value;
    var children := ChildrenFrom(members, SCHEMA_KEYS);
    var skip := |cs| - |children|;
    if i < skip {
      AtNamed(root.members, "$defs", Get(root.members, "$defs").value.members, cs[i].place.name);
    } else {
      ChildrenFromAt(members, SCHEMA_KEYS, i - skip);
      assert cs[i] == children[i - skip];
      AtAppend(root, path, cs[i].place.suffix);
    }
  }

  // ---------- the visit ----------

  /** A dict on the current branch, with its identity. */
  datatype Visited = Visited(path: Path, node: Json)

  function Nodes(trail: seq<Visited>): seq<Json> {
    seq(|trail|, i requires 0 <= i < |trail| => trail[i].node)
  }

  /** The branch from the root down to the node at `path`. */
  ghost predicate Branch(root: Json, trail: seq<Visited>, path: Path, node: Json) {
    && At(root, path) == Some(node)
    && (forall k | 0 <= k < |trail| :: At(root, trail[k].path) == Some(trail[k].node))
    && Chain(root, Nodes(trail) + [node])
  }

  ghost function Identities(trail: seq<Visited>): set<Path> {
    set k | 0 <= k < |trail| :: trail[k].path
  }

  lemma {:induction false} RecursionHasNoUnfolding(root: Json, trail: seq<Visited>, path: Path, node: Json, u: Unfolding)
    requires Branch(root, trail, path, node) && path in Identities(trail)
    ensures !IsUnfolding(root, node, u)
  {
    var k :| 0 <= k < |trail| && trail[k].path == path;
    var all := Nodes(trail) + [node];
    var loop := all[k..];
    assert loop[0] == node && loop[|loop| - 1] == node;
    forall j | 0 <= j < |loop| - 1 ensures IsChild(root, loop[j], loop[j + 1]) {
      assert IsChild(root, all[k + j], all[k + j + 1]);
    }
    CycleHasNoUnfolding(root, loop, u);
  }

  lemma {:induction false} BranchDown(root: Json, trail: seq<Visited>, path: Path, members: seq<Member>, i: nat)
    requires WellFormed(root) && Branch(root, trail, path, Obj(members))
    requires Successors(root, members).Some? && i < |Successors(root, members).value|
    ensures var child := Successors(root, members).value[i];
            Branch(root, trail + [Visited(path, Obj(members))], PlaceOf(path, child.place), child.node)
    ensures Identities(trail + [Visited(path, Obj(members))]) == Identities(trail) + {path}
  {
    ChildAt(root, path, members, i);
    var child := Successors(root, members).value[i];
    var trail' := trail + [Visited(path, Obj(members))];
    var all := Nodes(trail) + [Obj(members)];
    assert Nodes(trail') == all;
    assert IsChild(root, Obj(members), child.node);
    forall k | 0 <= k < |all + [child.node]| - 1 ensures IsChild(root, (all + [child.node])[k], (all + [child.node])[k + 1]) {
      if k < |all| - 1 { assert IsChild(root, all[k], all[k + 1]); }
    }
    assert trail'[|trail|].path == path;
    assert forall k | 0 <= k < |trail| :: trail'[k] == trail[k];
  }

  /** The unfoldings found for the children visited so far. */
  ghost predicate Visits(root: Json, children: seq<Child>, product: nat, us: seq<Unfolding>) {
    && |us| <= |children|
    && forall k | 0 <= k < |us| ::
         && product * children[k].factor <= MAX_BRANCH_PRODUCT
         && IsUnfolding(root, children[k].node, us[k])
         && Narrow(root, children[k].node, us[k], product * children[k].factor)
  }

  /** No unfolding of this node is narrow and fits what is left of the node budget. */
  ghost predicate Refused(root: Json, node: Json, product: nat, count: nat) {
    forall u :: IsUnfolding(root, node, u) && Narrow(root, node, u, product) ==> count + Size(u) > MAX_EXPANDED_NODES
  }

  lemma {:induction false} VisitedPrefix(root: Json, members: seq<Member>, product: nat, us: seq<Unfolding>, u: Unfolding)
    requires Successors(root, members).Some? && Visits(root, Successors(root, members).value, product, us)
    requires IsUnfolding(root, Obj(members), u)
    ensures |us| <= |u.children| && u.children[..|us|] == us
  {
    var children := Successors(root, members).value;
    forall k | 0 <= k < |us| ensures u.children[k] == us[k] {
      UnfoldingIsUnique(root, children[k].node, u.children[k], us[k]);
    }
  }

  lemma {:induction false} NarrowPart(root: Json, members: seq<Member>, product: nat, u: Unfolding, i: nat)
    requires IsUnfolding(root, Obj(members), u) && Narrow(root, Obj(members), u, product) && i < |u.children|
    ensures var child := Successors(root, members).value[i];
            && product * child.factor <= MAX_BRANCH_PRODUCT
            && IsUnfolding(root, child.node, u.children[i])
            && Narrow(root, child.node, u.children[i], product * child.factor)
  {
  }

  lemma {:induction false} ChildPushesOver(root: Json, members: seq<Member>, product: nat, count: nat, us: seq<Unfolding>, u: Unfolding)
    requires Successors(root, members).Some?
    requires Visits(root, Successors(root, members).value, product, us) && |us| < |Successors(root, members).value|
    requires var child := Successors(root, members).value[|us|];
             product * child.factor > MAX_BRANCH_PRODUCT
             || Refused(root, child.node, product * child.factor, count + 1 + Sizes(us))
    requires IsUnfolding(root, Obj(members), u) && Narrow(root, Obj(members), u, product)
    ensures count + Size(u) > MAX_EXPANDED_NODES
  {
    VisitedPrefix(root, members, product, us, u);
    PartOfSizes(u.children, |us|);
    NarrowPart(root, members, product, u, |us|);
  }

  /** A node is refused as soon as one of its children is. */
  lemma {:induction false} ChildRefuses(root: Json, members: seq<Member>, product: nat, count: nat, us: seq<Unfolding>)
    requires Successors(root, members).Some?
    requires Visits(root, Successors(root, members).value, product, us) && |us| < |Successors(root, members).value|
    requires var child := Successors(root, members).value[|us|];
             product * child.factor > MAX_BRANCH_PRODUCT
             || Refused(root, child.node, product * child.factor, count + 1 + Sizes(us))
    ensures Refused(root, Obj(members), product, count)
  {
    forall u | IsUnfolding(root, Obj(members), u) && Narrow(root, Obj(members), u, product)
      ensures count + Size(u) > MAX_EXPANDED_NODES
    {
      ChildPushesOver(root, members, product, count, us, u);
    }
  }

  lemma {:induction false} VisitsOneMore(root: Json, children: seq<Child>, product: nat, us: seq<Unfolding>, u: Unfolding)
    requires Visits(root, children, product, us) && |us| < |children|
    requires product * children[|us|].factor <= MAX_BRANCH_PRODUCT
    requires IsUnfolding(root, children[|us|].node, u)
    requires Narrow(root, children[|us|].node, u, product * children[|us|].factor)
    ensures Visits(root, children, product, us + [u]) && Sizes(us + [u]) == Sizes(us) + Size(u)
  {
    assert (us + [u])[..|us|] == us;
  }

  lemma {:induction false} VisitsDone(root: Json, members: seq<Member>, product: nat, us: seq<Unfolding>)
    requires Successors(root, members).Some?
    requires Visits(root, Successors(root, members).value, product, us) && |us| == |Successors(root, members).value|
    ensures IsUnfolding(root, Obj(members), Unfolding(us)) && Narrow(root, Obj(members), Unfolding(us), product)
    ensures Size(Unfolding(us)) == 1 + Sizes(us)
  {
  }

  /** Refusals that do not depend on the children. */
  lemma {:induction false} RefusedOutright(root: Json, node: Json, product: nat, count: nat)
    requires (!node.Bool? && !node.Obj?) || count + 1 > MAX_EXPANDED_NODES
             || (node.Obj? && Successors(root, node.members).None?)
    ensures Refused(root, node, product, count)
  {
  }

  /** One call of `visit`. `count` is the shared counter before the call; the result
      is the counter after it, or None when the schema is rejected. */
  method Visit(root: Json, path: Path, node: Json, active: set<Path>, product: nat, count: nat, ghost trail: seq<Visited>)
    returns (counted: Option<nat>, ghost u: Unfolding)
    requires WellFormed(root) && Branch(root, trail, path, node) && active == Identities(trail)
    requires count <= MAX_EXPANDED_NODES
    ensures counted.Some? ==>
              && IsUnfolding(root, node, u) && Narrow(root, node, u, product)
              && counted.value == count + Size(u) <= MAX_EXPANDED_NODES
    ensures counted.None? ==> Refused(root, node, product, count)
    decreases MAX_EXPANDED_NODES - count
  {
    u := Unfolding([]);
    if node.Bool? {
      if count + 1 > MAX_EXPANDED_NODES {
        RefusedOutright(root, node, product, count);
        return None, u;
      }
      return Some(count + 1), u;
    }
    if !node.Obj? {
      RefusedOutright(root, node, product, count);
      return None, u;
    }
    if path in active {
      forall v ensures !IsUnfolding(root, node, v) {
        RecursionHasNoUnfolding(root, trail, path, node, v);
      }
      return None, u;
    }
    if count + 1 > MAX_EXPANDED_NODES {
      RefusedOutright(root, node, product, count);
      return None, u;
    }
    var successors := Successors(root, node.members);
    if successors.None? {
      RefusedOutright(root, node, product, count);
      return None, u;
    }
    var children := successors.value;
    var total := count + 1;
    ghost var us: seq<Unfolding> := [];
    var i := 0;
    while i < |children|
      invariant 0 <= i <= |children| && |us| == i
      invariant Visits(root, children, product, us)
      invariant total == count + 1 + Sizes(us) <= MAX_EXPANDED_NODES
    {
      var childProduct := product * children[i].factor;
      if childProduct > MAX_BRANCH_PRODUCT {
        ChildRefuses(root, node.members, product, count, us);
        return None, u;
      }
      BranchDown(root, trail, path, node.members, i);
      var counted', v := Visit(root, PlaceOf(path, children[i].place), children[i].node, active + {path},
                               childProduct, total, trail + [Visited(path, node)]);
      if counted'.None? {
        ChildRefuses(root, node.members, product, count, us);
        return None, u;
      }
      VisitsOneMore(root, children, product, us, v);
      us := us + [v];
      total := counted'.value;
      i := i + 1;
    }
    u := Unfolding(us);
    VisitsDone(root, node.members, product, us);
    return Some(total), u;
  }

  /** `_check_schema_complexity`: it halts on every schema, cyclic ones included, and
      accepts exactly those with a finite, small and narrow unfolding. */
  method CheckComplexity(schema: Json) returns (accepted: bool)
    requires WellFormed(schema)
    ensures accepted <==> Acceptable(schema)
  {
    assert Nodes([]) + [schema] == [schema];
    var counted, u := Visit(schema, [], schema, {}, 1, 0, []);
    return counted.Some?;
  }

  /** A definition that refers to itself is rejected, however small it looks. */
  lemma {:induction false} SelfReferenceIsRejected(schema: Json, members: seq<Member>)
    requires schema.Obj? && IsChild(schema, schema, Obj(members)) && IsChild(schema, Obj(members), Obj(members))
    ensures !Acceptable(schema)
  {
    forall u ensures !IsUnfolding(schema, schema, u) {
      if IsUnfolding(schema, schema, u) {
        var v := ChildUnfolding(schema, schema, Obj(members), u);
        var loop := [Obj(members), Obj(members)];
        CycleHasNoUnfolding(schema, loop, v);
      }
    }
  }
}
