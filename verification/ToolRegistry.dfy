/** The agent's tool registry: an insertion-ordered map from tool name to tool
    object, changed in batches (k2do/agent/tools/registry.py). */
module ToolRegistry {
  import opened Prelude

  /** A tool object. `id` stands for object identity; `name` is its published name. */
  datatype Tool = Tool(id: nat, name: string)

  datatype RegisterError = MalformedMcpIdentity | DuplicateNames | Collision

  const MCP_PREFIX := "mcp_"
  const MCP_DIGEST_LENGTH := 32
  const MCP_INVALID_NAME_MARKER := "mcp_[invalid]"

  predicate LowerHex(c: char) {
    '0' <= c <= '9' || 'a' <= c <= 'f'
  }

  predicate IsMcpToolAttempt(name: string) {
    MCP_PREFIX <= name
  }

  predicate IsMcpToolName(name: string) {
    && |name| == |MCP_PREFIX| + MCP_DIGEST_LENGTH
    && MCP_PREFIX <= name
    && forall i | |MCP_PREFIX| <= i < |name| :: LowerHex(name[i])
  }

  function SafeToolName(name: string): (safe: string)
    ensures IsMcpToolAttempt(safe) <==> IsMcpToolAttempt(name)
    ensures IsMcpToolAttempt(safe) ==> IsMcpToolName(safe) || safe == MCP_INVALID_NAME_MARKER
    ensures !IsMcpToolAttempt(name) ==> safe == name
    ensures IsMcpToolName(name) ==> safe == name
    ensures IsMcpToolAttempt(name) && !IsMcpToolName(name) ==> safe == MCP_INVALID_NAME_MARKER
  {
    if IsMcpToolAttempt(name) && !IsMcpToolName(name) then MCP_INVALID_NAME_MARKER else name
  }

  function Names(tools: seq<Tool>): (names: seq<string>)
    ensures |names| == |tools|
    ensures forall i | 0 <= i < |tools| :: names[i] == tools[i].name
  {
    seq(|tools|, i requires 0 <= i < |tools| => tools[i].name)
  }

  predicate Distinct(names: seq<string>) {
    forall i, j | 0 <= i < j < |names| :: names[i] != names[j]
  }

  /** No batch name is malformed, repeated, or already taken. */
  predicate Registrable(tools: seq<Tool>, batch: seq<Tool>) {
    && (forall t | t in batch :: IsMcpToolAttempt(t.name) ==> IsMcpToolName(t.name))
    && Distinct(Names(tools + batch))
  }

  /** The entry of `name`, `dict.get` style. */
  function Lookup(tools: seq<Tool>, name: string): (found: Option<Tool>)
    ensures found.None? <==> forall t | t in tools :: t.name != name
    ensures found.Some? ==> found.value in tools && found.value.name == name
  {
    if tools == [] then None
    else if tools[0].name == name then Some(tools[0])
    else Lookup(tools[1..], name)
  }

  lemma {:induction false} LookupFinds(tools: seq<Tool>, t: Tool)
    requires Distinct(Names(tools)) && t in tools
    ensures Lookup(tools, t.name) == Some(t)
  {
    var found := Lookup(tools, t.name);
    var i :| 0 <= i < |tools| && tools[i] == t;
    var j :| 0 <= j < |tools| && tools[j] == found.value;
    assert Names(tools)[i] == Names(tools)[j];
  }

  /** `unregister_many` asks for `t`: some position names it and either no
      identities were passed or the identity at that position is `t` itself. */
  predicate Asked(t: Tool, names: seq<string>, expected: Option<seq<Tool>>)
    requires expected.Some? ==> |expected.value| == |names|
  {
    exists i | 0 <= i < |names| :: names[i] == t.name && (expected.None? || expected.value[i] == t)
  }

  /** The registry without every tool that is asked for, order kept. */
  function Without(tools: seq<Tool>, names: seq<string>, expected: Option<seq<Tool>>): (rest: seq<Tool>)
    requires expected.Some? ==> |expected.value| == |names|
  {
    if tools == [] then []
    else (if Asked(tools[0], names, expected) then [] else [tools[0]]) + Without(tools[1..], names, expected)
  }

  lemma {:induction false} WithoutAppend(a: seq<Tool>, b: seq<Tool>, names: seq<string>, expected: Option<seq<Tool>>)
    requires expected.Some? ==> |expected.value| == |names|
    ensures Without(a + b, names, expected) == Without(a, names, expected) + Without(b, names, expected)
  {
    if a == [] {
      assert a + b == b;
    } else {
      assert (a + b)[1..] == a[1..] + b;
      WithoutAppend(a[1..], b, names, expected);
    }
  }

  lemma {:induction false} WithoutKeeps(tools: seq<Tool>, names: seq<string>, expected: Option<seq<Tool>>)
    requires expected.Some? ==> |expected.value| == |names|
    requires forall t | t in tools :: !Asked(t, names, expected)
    ensures Without(tools, names, expected) == tools
  {
    if tools != [] {
      WithoutKeeps(tools[1..], names, expected);
    }
  }

  lemma {:induction false} WithoutDrops(tools: seq<Tool>, names: seq<string>, expected: Option<seq<Tool>>)
    requires expected.Some? ==> |expected.value| == |names|
    requires forall t | t in tools :: Asked(t, names, expected)
    ensures Without(tools, names, expected) == []
  {
    if tools != [] {
      WithoutDrops(tools[1..], names, expected);
    }
  }

  lemma {:induction false} WithoutMember(tools: seq<Tool>, names: seq<string>, expected: Option<seq<Tool>>, t: Tool)
    requires expected.Some? ==> |expected.value| == |names|
    ensures t in Without(tools, names, expected) <==> t in tools && !Asked(t, names, expected)
  {
    if tools != [] {
      WithoutMember(tools[1..], names, expected, t);
      assert tools == [tools[0]] + tools[1..];
    }
  }

  lemma {:induction false} WithoutDistinct(tools: seq<Tool>, names: seq<string>, expected: Option<seq<Tool>>)
    requires expected.Some? ==> |expected.value| == |names|
    requires Distinct(Names(tools))
    ensures Distinct(Names(Without(tools, names, expected)))
  {
    if tools != [] {
      assert Names(tools)[1..] == Names(tools[1..]);
      WithoutDistinct(tools[1..], names, expected);
      var rest := Without(tools[1..], names, expected);
      forall i | 0 <= i < |rest| ensures rest[i].name != tools[0].name {
        WithoutMember(tools[1..], names, expected, rest[i]);
        assert rest[i] in rest;
        var j :| 0 <= j < |tools[1..]| && tools[1..][j] == rest[i];
        assert Names(tools)[0] != Names(tools)[j + 1];
      }
    }
  }

  lemma {:induction false} OutsideBatch(before: seq<Tool>, batch: seq<Tool>, after: seq<Tool>, j: nat)
    requires Distinct(Names(before + batch + after))
    requires j < |before| || |before| + |batch| <= j < |before + batch + after|
    ensures !Asked((before + batch + after)[j], Names(batch), Some(batch))
  {
    var all := before + batch + after;
    forall i | 0 <= i < |batch| ensures batch[i] != all[j] {
      assert all[|before| + i] == batch[i];
      assert Names(all)[|before| + i] != Names(all)[j];
    }
  }

  lemma {:induction false} BatchIsAsked(batch: seq<Tool>)
    ensures Without(batch, Names(batch), Some(batch)) == []
  {
    forall t | t in batch ensures Asked(t, Names(batch), Some(batch)) {
      var i :| 0 <= i < |batch| && batch[i] == t;
      assert Names(batch)[i] == t.name;
    }
    WithoutDrops(batch, Names(batch), Some(batch));
  }

  lemma {:induction false} BeforeIsKept(before: seq<Tool>, batch: seq<Tool>, after: seq<Tool>)
    requires Distinct(Names(before + batch + after))
    ensures Without(before, Names(batch), Some(batch)) == before
  {
    forall t | t in before ensures !Asked(t, Names(batch), Some(batch)) {
      var k :| 0 <= k < |before| && before[k] == t;
      OutsideBatch(before, batch, after, k);
    }
    WithoutKeeps(before, Names(batch), Some(batch));
  }

  lemma {:induction false} AfterIsKept(before: seq<Tool>, batch: seq<Tool>, after: seq<Tool>)
    requires Distinct(Names(before + batch + after))
    ensures Without(after, Names(batch), Some(batch)) == after
  {
    forall t | t in after ensures !Asked(t, Names(batch), Some(batch)) {
      var k :| 0 <= k < |after| && after[k] == t;
      OutsideBatch(before, batch, after, |before| + |batch| + k);
    }
    WithoutKeeps(after, Names(batch), Some(batch));
  }

  lemma {:induction false} NothingBetween(before: seq<Tool>, after: seq<Tool>)
    ensures before + [] + after == before + after
  {
  }

  /** Unregistering a batch by name and identity takes out exactly that batch,
      wherever it sits, and keeps the order of everything else. */
  lemma {:induction false} UnregisterUndoesRegister(before: seq<Tool>, batch: seq<Tool>, after: seq<Tool>)
    requires Distinct(Names(before + batch + after))
    ensures Without(before + batch + after, Names(batch), Some(batch)) == before + after
  {
    BeforeIsKept(before, batch, after);
    BatchIsAsked(batch);
    AfterIsKept(before, batch, after);
    WithoutAppend(before + batch, after, Names(batch), Some(batch));
    WithoutAppend(before, batch, Names(batch), Some(batch));
    NothingBetween(before, after);
  }

  lemma {:induction false} DistinctPrefix(tools: seq<Tool>, batch: seq<Tool>)
    requires Distinct(Names(tools + batch))
    ensures Distinct(Names(tools)) && Distinct(Names(batch))
  {
    var all := Names(tools + batch);
    assert forall i | 0 <= i < |tools| :: Names(tools)[i] == all[i];
    assert forall i | 0 <= i < |batch| :: Names(batch)[i] == all[|tools| + i];
  }

  lemma {:induction false} AskedByName(t: Tool, name: string)
    ensures Asked(t, [name], None) <==> t.name == name
  {
    assert [name][0] == name;
  }

  lemma {:induction false} NoneAsked(tools: seq<Tool>, name: string)
    requires forall k | 0 <= k < |tools| :: tools[k].name != name
    ensures Without(tools, [name], None) == tools
  {
    if tools != [] {
      AskedByName(tools[0], name);
      NoneAsked(tools[1..], name);
    }
  }

  lemma {:induction false} OneAsked(tools: seq<Tool>, i: nat, name: string)
    requires i < |tools| && tools[i].name == name
    requires forall k | 0 <= k < |tools| && k != i :: tools[k].name != name
    ensures Without(tools, [name], None) == tools[..i] + tools[i + 1..]
  {
    AskedByName(tools[0], name);
    if i == 0 {
      NoneAsked(tools[1..], name);
    } else {
      OneAsked(tools[1..], i - 1, name);
      assert tools[1..][..i - 1] == tools[1..i] && tools[1..][i..] == tools[i + 1..];
      assert tools[..i] == [tools[0]] + tools[1..i];
    }
  }

  lemma {:induction false} PopStaysDistinct(tools: seq<Tool>, i: nat)
    requires i < |tools| && Distinct(Names(tools))
    ensures Distinct(Names(tools[..i] + tools[i + 1..]))
  {
    var rest := tools[..i] + tools[i + 1..];
    forall a, b | 0 <= a < b < |rest| ensures Names(rest)[a] != Names(rest)[b] {
      assert Names(tools)[if a < i then a else a + 1] != Names(tools)[if b < i then b else b + 1];
    }
  }

  lemma {:induction false} PopLeaves(tools: seq<Tool>, i: nat, t: Tool)
    requires i < |tools| && Distinct(Names(tools))
    ensures t in tools[..i] + tools[i + 1..] <==> t in tools && t.name != tools[i].name
  {
    var rest := tools[..i] + tools[i + 1..];
    if t in tools && t.name != tools[i].name {
      var k :| 0 <= k < |tools| && tools[k] == t;
      assert rest[if k < i then k else k - 1] == t;
    }
    if t in rest {
      var k :| 0 <= k < |rest| && rest[k] == t;
      var j := if k < i then k else k + 1;
      assert tools[j] == t && Names(tools)[if j < i then j else i] != Names(tools)[if j < i then i else j];
    }
  }

  /** Membership and order together determine the registry after a pop. */
  lemma {:induction false} PoppedIsWithout(tools: seq<Tool>, rest: seq<Tool>, name: string)
    requires Distinct(Names(tools)) && forall t :: t in rest <==> t in tools && t.name != name
    requires rest == tools || exists i | 0 <= i < |tools| :: tools[i].name == name && rest == tools[..i] + tools[i + 1..]
    ensures rest == Without(tools, [name], None)
  {
    if rest == tools {
      forall k | 0 <= k < |tools| ensures tools[k].name != name {
        assert tools[k] in rest;
      }
      NoneAsked(tools, name);
    } else {
      var i :| 0 <= i < |tools| && tools[i].name == name && rest == tools[..i] + tools[i + 1..];
      forall k | 0 <= k < |tools| && k != i ensures tools[k].name != name {
        assert Names(tools)[if k < i then k else i] != Names(tools)[if k < i then i else k];
      }
      OneAsked(tools, i, name);
    }
  }

  lemma {:induction false} WithoutMembers(tools: seq<Tool>, names: seq<string>, expected: Option<seq<Tool>>, t: Tool)
    requires expected.Some? ==> |expected.value| == |names|
    ensures t in Without(tools, names, expected) <==> t in tools && !Asked(t, names, expected)
  {
    if tools != [] {
      WithoutMembers(tools[1..], names, expected, t);
      assert tools == [tools[0]] + tools[1..];
    }
  }

  /** With identities, exactly the tools of the batch go: a tool that has taken the name of one
      of them in the meantime stays. */
  lemma {:induction false} OnlyTheBatchGoes(tools: seq<Tool>, batch: seq<Tool>, t: Tool)
    ensures t in Without(tools, Names(batch), Some(batch)) <==> t in tools && t !in batch
  {
    WithoutMembers(tools, Names(batch), Some(batch), t);
    if t in batch {
      var i :| 0 <= i < |batch| && batch[i] == t;
      assert Names(batch)[i] == t.name;
    }
  }

  /** Without identities, every tool of one of the names goes. */
  lemma {:induction false} AllOfTheNamesGo(tools: seq<Tool>, names: seq<string>, t: Tool)
    ensures t in Without(tools, names, None) <==> t in tools && t.name !in names
  {
    WithoutMembers(tools, names, None, t);
    if t.name in names {
      var i :| 0 <= i < |names| && names[i] == t.name;
      assert Asked(t, names, None);
    }
  }

  class Registry {
    var tools: seq<Tool>

    ghost predicate Valid()
      reads this
    {
      Distinct(Names(tools))
    }

    constructor ()
      ensures Valid() && tools == []
    {
      tools := [];
    }

    /** Registers one closed batch, or leaves the registry unchanged and says why. */
    method RegisterMany(batch: seq<Tool>) returns (error: Option<RegisterError>)
      requires Valid()
      modifies this
      ensures Valid()
      ensures error.None? <==> Registrable(old(tools), batch)
      ensures tools == if error.None? then old(tools) + batch else old(tools)
      ensures error == Some(MalformedMcpIdentity) <==>
              exists t | t in batch :: IsMcpToolAttempt(t.name) && !IsMcpToolName(t.name)
      ensures error == Some(Collision) ==> exists t | t in batch :: t.name in Names(tools)
      ensures error == Some(DuplicateNames) ==> !Distinct(Names(batch))
    {
      var names := Names(batch);
      if exists t | t in batch :: IsMcpToolAttempt(t.name) && !IsMcpToolName(t.name) {
        return Some(MalformedMcpIdentity);
      }
      if !Distinct(names) {
        assert Distinct(Names(tools + batch)) ==> Distinct(Names(batch)) by {
          if Distinct(Names(tools + batch)) { DistinctPrefix(tools, batch); }
        }
        return Some(DuplicateNames);
      }
      var i := 0;
      while i < |names|
        invariant 0 <= i <= |names|
        invariant forall k | 0 <= k < i :: Lookup(tools, names[k]).None?
      {
        if Lookup(tools, names[i]).Some? {
          ghost var taken := Lookup(tools, names[i]).value;
          ghost var j :| 0 <= j < |tools| && tools[j] == taken;
          assert batch[i] in batch && Names(tools)[j] == batch[i].name;
          assert Names(tools + batch)[j] == Names(tools + batch)[|tools| + i];
          return Some(Collision);
        }
        i := i + 1;
      }
      forall a, b | 0 <= a < b < |tools + batch|
        ensures Names(tools + batch)[a] != Names(tools + batch)[b]
      {
        if b < |tools| {
          assert Names(tools)[a] != Names(tools)[b];
        } else if |tools| <= a {
          assert names[a - |tools|] != names[b - |tools|];
        } else {
          assert Lookup(tools, names[b - |tools|]).None? && tools[a] in tools;
        }
      }
      tools := tools + batch;
      return None;
    }

    /** `dict.pop(name, None)`: nothing is left under that name, everything else stays, and at
        most one entry goes, so that the order is kept. */
    method Unregister(name: string)
      requires Valid()
      modifies this
      ensures Valid()
      ensures forall t :: t in tools <==> t in old(tools) && t.name != name
      ensures tools == old(tools) ||
              exists i | 0 <= i < |old(tools)| :: old(tools)[i].name == name && tools == old(tools)[..i] + old(tools)[i + 1..]
    {
      var i := 0;
      while i < |tools| && tools[i].name != name
        invariant 0 <= i <= |tools| && tools == old(tools)
        invariant forall k | 0 <= k < i :: tools[k].name != name
      {
        i := i + 1;
      }
      if i < |tools| {
        PopStaysDistinct(tools, i);
        forall t ensures t in tools[..i] + tools[i + 1..] <==> t in tools && t.name != name {
          PopLeaves(tools, i, t);
        }
        tools := tools[..i] + tools[i + 1..];
      }
    }

    /** The same, read as a filter. */
    method Drop(name: string)
      requires Valid()
      modifies this
      ensures Valid() && tools == Without(old(tools), [name], None)
    {
      Unregister(name);
      PoppedIsWithout(old(tools), tools, name);
    }

    /** Unregisters a batch, optionally only where the object identities still match. */
    method UnregisterMany(names: seq<string>, expected: Option<seq<Tool>>) returns (lengthDiffers: bool)
      requires Valid()
      modifies this
      ensures Valid()
      ensures lengthDiffers <==> expected.Some? && |expected.value| != |names|
      ensures lengthDiffers ==> tools == old(tools)
      ensures !lengthDiffers ==> tools == Without(old(tools), names, expected)
    {
      if expected.Some? && |expected.value| != |names| {
        return true;
      }
      ghost var start := tools;
      NothingAsked(start, names, expected);
      var i := 0;
      while i < |names|
        invariant 0 <= i <= |names|
        invariant Valid()
        invariant tools == WithoutUpto(start, names, expected, i)
      {
        UnregisterStep(start, tools, names, expected, i);
        var found := Lookup(tools, names[i]);
        if found.Some? && (expected.None? || found.value == expected.value[i]) {
          Drop(names[i]);
        }
        i := i + 1;
      }
      AllAsked(start, names, expected);
      return false;
    }
  }

  /** The registry after the unregister loop has handled positions below `i`. */
  ghost function WithoutUpto(tools: seq<Tool>, names: seq<string>, expected: Option<seq<Tool>>, i: nat): seq<Tool>
    requires i <= |names| && (expected.Some? ==> |expected.value| == |names|)
  {
    Without(tools, names[..i], Upto(expected, i))
  }

  lemma {:induction false} NothingAsked(tools: seq<Tool>, names: seq<string>, expected: Option<seq<Tool>>)
    requires expected.Some? ==> |expected.value| == |names|
    ensures WithoutUpto(tools, names, expected, 0) == tools
  {
    WithoutKeeps(tools, names[..0], Upto(expected, 0));
  }

  lemma {:induction false} AllAsked(tools: seq<Tool>, names: seq<string>, expected: Option<seq<Tool>>)
    requires expected.Some? ==> |expected.value| == |names|
    ensures WithoutUpto(tools, names, expected, |names|) == Without(tools, names, expected)
  {
    assert names[..|names|] == names;
    if expected.Some? {
      assert expected.value[..|names|] == expected.value;
    }
  }

  /** One pass of the unregister loop: pop `names[i]` when its entry matches. */
  function Popped(tools: seq<Tool>, names: seq<string>, expected: Option<seq<Tool>>, i: nat): seq<Tool>
    requires i < |names| && (expected.Some? ==> |expected.value| == |names|)
  {
    var found := Lookup(tools, names[i]);
    if found.Some? && (expected.None? || found.value == expected.value[i])
    then Without(tools, [names[i]], None) else tools
  }

  lemma {:induction false} UnregisterStep(start: seq<Tool>, tools: seq<Tool>, names: seq<string>, expected: Option<seq<Tool>>, i: nat)
    requires i < |names| && (expected.Some? ==> |expected.value| == |names|)
    requires Distinct(Names(tools)) && tools == WithoutUpto(start, names, expected, i)
    ensures Popped(tools, names, expected, i) == WithoutUpto(start, names, expected, i + 1)
    ensures Distinct(Names(Popped(tools, names, expected, i)))
  {
    WithoutStep(start, names, expected, i);
    WithoutDistinct(tools, [names[i]], None);
    var found := Lookup(tools, names[i]);
    if found.Some? && (expected.None? || found.value == expected.value[i]) {
      PopLemma(tools, found.value, names, expected, i);
    } else {
      NoPopLemma(tools, names, expected, i);
    }
  }

  function Upto(expected: Option<seq<Tool>>, i: nat): Option<seq<Tool>>
    requires expected.Some? ==> i <= |expected.value|
  {
    if expected.None? then None else Some(expected.value[..i])
  }

  /** The one position `i` of an unregister request. */
  predicate AskedAt(t: Tool, names: seq<string>, expected: Option<seq<Tool>>, i: nat)
    requires i < |names| && (expected.Some? ==> |expected.value| == |names|)
  {
    names[i] == t.name && (expected.None? || expected.value[i] == t)
  }

  ghost function WithoutAt(tools: seq<Tool>, names: seq<string>, expected: Option<seq<Tool>>, i: nat): seq<Tool>
    requires i < |names| && (expected.Some? ==> |expected.value| == |names|)
  {
    Without(tools, [names[i]], if expected.None? then None else Some([expected.value[i]]))
  }

  lemma {:induction false} WithoutStep(tools: seq<Tool>, names: seq<string>, expected: Option<seq<Tool>>, i: nat)
    requires i < |names| && (expected.Some? ==> |expected.value| == |names|)
    ensures Without(tools, names[..i + 1], Upto(expected, i + 1))
         == WithoutAt(Without(tools, names[..i], Upto(expected, i)), names, expected, i)
  {
    if tools != [] {
      var t := tools[0];
      var rest := Without(tools[1..], names[..i], Upto(expected, i));
      WithoutStep(tools[1..], names, expected, i);
      var one := if expected.None? then None else Some([expected.value[i]]);
      var head := if Asked(t, names[..i], Upto(expected, i)) then [] else [t];
      WithoutAppend(head, rest, [names[i]], one);
      assert Asked(t, names[..i + 1], Upto(expected, i + 1)) <==>
             Asked(t, names[..i], Upto(expected, i)) || Asked(t, [names[i]], one) by {
        assert Asked(t, [names[i]], one) <==> AskedAt(t, names, expected, i) by {
          if AskedAt(t, names, expected, i) { assert [names[i]][0] == t.name; }
        }
        if AskedAt(t, names, expected, i) { assert names[..i + 1][i] == t.name; }
        if Asked(t, names[..i], Upto(expected, i)) {
          var k :| 0 <= k < i && names[..i][k] == t.name && (expected.None? || Upto(expected, i).value[k] == t);
          assert names[..i + 1][k] == t.name;
        }
        if Asked(t, names[..i + 1], Upto(expected, i + 1)) && !AskedAt(t, names, expected, i) {
          var k :| 0 <= k < i + 1 && names[..i + 1][k] == t.name
                && (expected.None? || Upto(expected, i + 1).value[k] == t);
          assert names[..i][k] == t.name;
        }
      }
      assert Without([t], [names[i]], one) == if Asked(t, [names[i]], one) then [] else [t] by {
        assert [t][1..] == [];
      }
      assert Without([], [names[i]], one) == [];
    }
  }

  lemma {:induction false} PopLemma(tools: seq<Tool>, found: Tool, names: seq<string>, expected: Option<seq<Tool>>, i: nat)
    requires i < |names| && (expected.Some? ==> |expected.value| == |names| && expected.value[i] == found)
    requires Distinct(Names(tools)) && found in tools && found.name == names[i]
    ensures Without(tools, [names[i]], None) == WithoutAt(tools, names, expected, i)
  {
    var one := if expected.None? then None else Some([expected.value[i]]);
    forall t | t in tools ensures Asked(t, [names[i]], None) <==> Asked(t, [names[i]], one) {
      if t.name == names[i] {
        LookupFinds(tools, t);
        LookupFinds(tools, found);
        assert [names[i]][0] == t.name;
      }
    }
    WithoutSame(tools, [names[i]], None, one);
  }

  lemma {:induction false} WithoutSame(tools: seq<Tool>, names: seq<string>, e1: Option<seq<Tool>>, e2: Option<seq<Tool>>)
    requires e1.Some? ==> |e1.value| == |names|
    requires e2.Some? ==> |e2.value| == |names|
    requires forall t | t in tools :: Asked(t, names, e1) <==> Asked(t, names, e2)
    ensures Without(tools, names, e1) == Without(tools, names, e2)
  {
    if tools != [] {
      WithoutSame(tools[1..], names, e1, e2);
    }
  }

  lemma {:induction false} NoPopLemma(tools: seq<Tool>, names: seq<string>, expected: Option<seq<Tool>>, i: nat)
    requires i < |names| && (expected.Some? ==> |expected.value| == |names|)
    requires Distinct(Names(tools))
    requires var found := Lookup(tools, names[i]);
             found.None? || (expected.Some? && found.value != expected.value[i])
    ensures WithoutAt(tools, names, expected, i) == tools
  {
    var one := if expected.None? then None else Some([expected.value[i]]);
    forall t | t in tools ensures !Asked(t, [names[i]], one) {
      if t.name == names[i] { LookupFinds(tools, t); }
    }
    WithoutKeeps(tools, [names[i]], one);
  }
}
