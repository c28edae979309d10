/** Whole configuration trees, there and back (k2do/config/loader.py, 147-184). */
module ConfigTree {
  import opened Prelude
  import opened ConfigKeys

  /** JSON data; an object's fields keep their order. */
  datatype Tree = Object(fields: seq<Field>) | List(items: seq<Tree>) | Leaf(value: string)

  datatype Field = Field(key: string, data: Tree)

  /** A pair of name conversions, the names it is meant for, and those of them that survive it. */
  datatype Names = Names(snake: string -> string, camel: string -> string, word: string -> bool, ok: string -> bool)

  ghost predicate Agree(n: Names) {
    forall key | n.word(key) :: n.ok(key) <==> n.snake(n.camel(key)) == key
  }

  /** Below these keys, the keys of an object are the user's own. */
  predicate Passthrough(parent: Option<string>) {
    parent == Some("extra_headers") || parent == Some("env") || parent == Some("mcp_servers")
  }

  /** `dict[key] = value`. */
  function Put(fields: seq<Field>, key: string, value: Tree): seq<Field> {
    if fields == [] then [Field(key, value)]
    else if fields[0].key == key then [Field(key, value)] + fields[1..]
    else [fields[0]] + Put(fields[1..], key, value)
  }

  // ---------- to snake case ----------

  function ConvertKeys(n: Names, data: Tree, parent: Option<string>): Tree
    decreases data, 1
  {
    match data
    case Object(fields) => Object(if Passthrough(parent) then ConvertValues(n, fields) else ConvertFields(n, fields))
    case List(items) => List(ConvertItems(n, items, parent))
    case Leaf(_) => data
  }

  function ConvertValues(n: Names, fields: seq<Field>): (out: seq<Field>)
    ensures |out| == |fields|
    decreases fields, 0
  {
    if fields == [] then []
    else
      var front, last := fields[..|fields| - 1], fields[|fields| - 1];
      ConvertValues(n, front) + [Field(last.key, ConvertKeys(n, last.data, Some(last.key)))]
  }

  function ConvertFields(n: Names, fields: seq<Field>): seq<Field>
    decreases fields, 0
  {
    if fields == [] then []
    else
      var front, last := fields[..|fields| - 1], fields[|fields| - 1];
      var key := n.snake(last.key);
      Put(ConvertFields(n, front), key, ConvertKeys(n, last.data, Some(key)))
  }

  function ConvertItems(n: Names, items: seq<Tree>, parent: Option<string>): (out: seq<Tree>)
    ensures |out| == |items|
    decreases items, 0
  {
    if items == [] then []
    else ConvertItems(n, items[..|items| - 1], parent) + [ConvertKeys(n, items[|items| - 1], parent)]
  }

  // ---------- to camel case ----------

  function ConvertToCamel(n: Names, data: Tree, parent: Option<string>): Tree
    decreases data, 1
  {
    match data
    case Object(fields) => Object(if Passthrough(parent) then CamelValues(n, fields) else CamelFields(n, fields))
    case List(items) => List(CamelItems(n, items, parent))
    case Leaf(_) => data
  }

  function CamelValues(n: Names, fields: seq<Field>): (out: seq<Field>)
    ensures |out| == |fields|
    decreases fields, 0
  {
    if fields == [] then []
    else
      var front, last := fields[..|fields| - 1], fields[|fields| - 1];
      CamelValues(n, front) + [Field(last.key, ConvertToCamel(n, last.data, Some(last.key)))]
  }

  function CamelFields(n: Names, fields: seq<Field>): seq<Field>
    decreases fields, 0
  {
    if fields == [] then []
    else
      var front, last := fields[..|fields| - 1], fields[|fields| - 1];
      Put(CamelFields(n, front), n.camel(last.key), ConvertToCamel(n, last.data, Some(last.key)))
  }

  function CamelItems(n: Names, items: seq<Tree>, parent: Option<string>): (out: seq<Tree>)
    ensures |out| == |items|
    decreases items, 0
  {
    if items == [] then []
    else CamelItems(n, items[..|items| - 1], parent) + [ConvertToCamel(n, items[|items| - 1], parent)]
  }

  // ---------- which trees survive ----------

  predicate Fresh(fields: seq<Field>, key: string) {
    forall i | 0 <= i < |fields| :: fields[i].key != key
  }

  /** Keys of an object differ; those that get converted are lower-case words joined by
      single underscores. */
  predicate WellFormed(n: Names, data: Tree, parent: Option<string>)
    decreases data, 1
  {
    match data
    case Object(fields) => FieldsWellFormed(n, fields, Passthrough(parent))
    case List(items) => ItemsWellFormed(n, items, parent)
    case Leaf(_) => true
  }

  predicate FieldsWellFormed(n: Names, fields: seq<Field>, kept: bool)
    decreases fields, 0
  {
    fields != [] ==>
      var front, last := fields[..|fields| - 1], fields[|fields| - 1];
      && FieldsWellFormed(n, front, kept) && Fresh(front, last.key)
      && (kept || n.word(last.key)) && WellFormed(n, last.data, Some(last.key))
  }

  predicate ItemsWellFormed(n: Names, items: seq<Tree>, parent: Option<string>)
    decreases items, 0
  {
    items != [] ==>
      ItemsWellFormed(n, items[..|items| - 1], parent) && WellFormed(n, items[|items| - 1], parent)
  }

  /** No converted key has two neighbouring one-letter words behind its first word. */
  predicate Spaced(n: Names, data: Tree, parent: Option<string>)
    decreases data, 1
  {
    match data
    case Object(fields) => FieldsSpaced(n, fields, Passthrough(parent))
    case List(items) => ItemsSpaced(n, items, parent)
    case Leaf(_) => true
  }

  predicate FieldsSpaced(n: Names, fields: seq<Field>, kept: bool)
    decreases fields, 0
  {
    fields != [] ==>
      var front, last := fields[..|fields| - 1], fields[|fields| - 1];
      && FieldsSpaced(n, front, kept) && (kept || n.ok(last.key)) && Spaced(n, last.data, Some(last.key))
  }

  predicate ItemsSpaced(n: Names, items: seq<Tree>, parent: Option<string>)
    decreases items, 0
  {
    items != [] ==> ItemsSpaced(n, items[..|items| - 1], parent) && Spaced(n, items[|items| - 1], parent)
  }

  lemma {:induction false} PutShape(fields: seq<Field>, key: string, value: Tree)
    ensures |fields| <= |Put(fields, key, value)| <= |fields| + 1
    ensures Fresh(fields, key) ==> Put(fields, key, value) == fields + [Field(key, value)]
    ensures |Put(fields, key, value)| == |fields| + 1 ==> Fresh(fields, key)
  {
    if fields != [] {
      PutShape(fields[1..], key, value);
      assert fields == [fields[0]] + fields[1..];
      if Fresh(fields[1..], key) && fields[0].key != key {
        forall i | 0 <= i < |fields| ensures fields[i].key != key {
          if i > 0 {
            assert fields[1..][i - 1].key != key;
          }
        }
      }
    }
  }

  /** Nothing is overwritten exactly when there are as many fields as before. */
  lemma {:induction false} CamelShape(n: Names, fields: seq<Field>)
    ensures |CamelFields(n, fields)| <= |fields|
    ensures fields != [] && |CamelFields(n, fields)| == |fields| ==>
              var front, last := fields[..|fields| - 1], fields[|fields| - 1];
              && |CamelFields(n, front)| == |front|
              && CamelFields(n, fields) == CamelFields(n, front) + [Field(n.camel(last.key), ConvertToCamel(n, last.data, Some(last.key)))]
  {
    if fields != [] {
      var front, last := fields[..|fields| - 1], fields[|fields| - 1];
      CamelShape(n, front);
      PutShape(CamelFields(n, front), n.camel(last.key), ConvertToCamel(n, last.data, Some(last.key)));
    }
  }

  lemma {:induction false} ConvertShape(n: Names, fields: seq<Field>)
    ensures |ConvertFields(n, fields)| <= |fields|
    ensures fields != [] && |ConvertFields(n, fields)| == |fields| ==>
              var front, last := fields[..|fields| - 1], fields[|fields| - 1];
              && |ConvertFields(n, front)| == |front|
              && ConvertFields(n, fields) == ConvertFields(n, front) + [Field(n.snake(last.key), ConvertKeys(n, last.data, Some(n.snake(last.key))))]
  {
    if fields != [] {
      var front, last := fields[..|fields| - 1], fields[|fields| - 1];
      var key := n.snake(last.key);
      ConvertShape(n, front);
      PutShape(ConvertFields(n, front), key, ConvertKeys(n, last.data, Some(key)));
    }
  }

  /** Fields whose names survive one by one are all there after the first trip. */
  lemma {:induction false} CamelKeepsAll(n: Names, fields: seq<Field>)
    requires Agree(n) && FieldsWellFormed(n, fields, false) && FieldsSpaced(n, fields, false)
    ensures |CamelFields(n, fields)| == |fields|
    ensures forall i | 0 <= i < |fields| :: n.snake(CamelFields(n, fields)[i].key) == fields[i].key
  {
    if fields != [] {
      var front, last := fields[..|fields| - 1], fields[|fields| - 1];
      CamelKeepsAll(n, front);
      assert Fresh(CamelFields(n, front), n.camel(last.key)) by {
        forall i | 0 <= i < |front| ensures CamelFields(n, front)[i].key != n.camel(last.key) {
          assert front[i].key != last.key;
        }
      }
      PutShape(CamelFields(n, front), n.camel(last.key), ConvertToCamel(n, last.data, Some(last.key)));
    }
  }

  predicate Survives(n: Names, data: Tree, parent: Option<string>) {
    ConvertKeys(n, ConvertToCamel(n, data, parent), parent) == data
  }

  lemma {:induction false} ValuesRoundTrip(n: Names, fields: seq<Field>)
    requires Agree(n) && FieldsWellFormed(n, fields, true)
    ensures ConvertValues(n, CamelValues(n, fields)) == fields <==> FieldsSpaced(n, fields, true)
    decreases fields, 0
  {
    if fields != [] {
      var front, last := fields[..|fields| - 1], fields[|fields| - 1];
      ValuesRoundTrip(n, front);
      TreeRoundTrip(n, last.data, Some(last.key));
      var camel := CamelValues(n, fields);
      assert camel[..|camel| - 1] == CamelValues(n, front);
      assert fields == front + [last];
      Snoc(ConvertValues(n, CamelValues(n, front)), front,
           Field(last.key, ConvertKeys(n, ConvertToCamel(n, last.data, Some(last.key)), Some(last.key))), last);
    }
  }

  lemma {:induction false} Snoc<T>(a: seq<T>, b: seq<T>, x: T, y: T)
    ensures a + [x] == b + [y] <==> a == b && x == y
  {
    if a + [x] == b + [y] {
      assert a == (a + [x])[..|a|] == (b + [y])[..|b|] == b;
      assert (a + [x])[|a|] == x && (b + [y])[|b|] == y;
    }
  }

  lemma {:induction false} ItemsRoundTrip(n: Names, items: seq<Tree>, parent: Option<string>)
    requires Agree(n) && ItemsWellFormed(n, items, parent)
    ensures ConvertItems(n, CamelItems(n, items, parent), parent) == items <==> ItemsSpaced(n, items, parent)
    decreases items, 0
  {
    if items != [] {
      var front, last := items[..|items| - 1], items[|items| - 1];
      ItemsRoundTrip(n, front, parent);
      TreeRoundTrip(n, last, parent);
      var camel := CamelItems(n, items, parent);
      assert camel[..|camel| - 1] == CamelItems(n, front, parent);
      assert items == front + [last];
      Snoc(ConvertItems(n, CamelItems(n, front, parent), parent), front, ConvertKeys(n, ConvertToCamel(n, last, parent), parent), last);
    }
  }

  /** When nothing was overwritten on the way there, the way back goes field by field too. */
  lemma {:induction false} FieldsBack(n: Names, fields: seq<Field>)
    requires fields != [] && |CamelFields(n, fields)| == |fields|
    ensures var front, last := fields[..|fields| - 1], fields[|fields| - 1];
            var key := n.snake(n.camel(last.key));
            && |CamelFields(n, front)| == |front|
            && ConvertFields(n, CamelFields(n, fields)) ==
               Put(ConvertFields(n, CamelFields(n, front)), key, ConvertKeys(n, ConvertToCamel(n, last.data, Some(last.key)), Some(key)))
  {
    CamelShape(n, fields);
    var front := fields[..|fields| - 1];
    assert CamelFields(n, fields)[..|fields| - 1] == CamelFields(n, front);
  }

  lemma {:induction false} PutSnoc(back: seq<Field>, front: seq<Field>, key: string, data: Tree, last: Field)
    requires |back| <= |front| && Fresh(front, last.key)
    ensures Put(back, key, data) == front + [last] <==> back == front && key == last.key && data == last.data
  {
    PutShape(back, key, data);
    Snoc(back, front, Field(key, data), last);
    if Put(back, key, data) == front + [last] {
      assert |Put(back, key, data)| == |front| + 1;
    }
  }

  lemma {:induction false} BackIsShort(n: Names, fields: seq<Field>)
    ensures |ConvertFields(n, CamelFields(n, fields))| <= |fields|
  {
    CamelShape(n, fields);
    ConvertShape(n, CamelFields(n, fields));
  }

  lemma {:induction false} FieldsRoundTrip(n: Names, fields: seq<Field>)
    requires Agree(n) && FieldsWellFormed(n, fields, false)
    ensures ConvertFields(n, CamelFields(n, fields)) == fields <==> FieldsSpaced(n, fields, false)
    decreases fields, 0
  {
    CamelShape(n, fields);
    if FieldsSpaced(n, fields, false) {
      CamelKeepsAll(n, fields);
    }
    if fields == [] {
    } else if |CamelFields(n, fields)| < |fields| {
      ConvertShape(n, CamelFields(n, fields));
    } else {
      FieldsRoundTripStep(n, fields);
    }
  }

  lemma {:induction false} FieldsRoundTripStep(n: Names, fields: seq<Field>)
    requires Agree(n) && fields != [] && |CamelFields(n, fields)| == |fields| && FieldsWellFormed(n, fields, false)
    ensures ConvertFields(n, CamelFields(n, fields)) == fields <==> FieldsSpaced(n, fields, false)
    decreases fields, 0, 0
  {
    var front, last := fields[..|fields| - 1], fields[|fields| - 1];
    var key := n.snake(n.camel(last.key));
    FieldsRoundTrip(n, front);
    TreeRoundTrip(n, last.data, Some(last.key));
    FieldsBack(n, fields);
    BackIsShort(n, front);
    PutSnoc(ConvertFields(n, CamelFields(n, front)), front, key,
            ConvertKeys(n, ConvertToCamel(n, last.data, Some(last.key)), Some(key)), last);
    assert fields == front + [last];
  }

  /** A tree survives the trip to camel case and back exactly when its converted keys are spaced. */
  lemma {:induction false} TreeRoundTrip(n: Names, data: Tree, parent: Option<string>)
    requires Agree(n) && WellFormed(n, data, parent)
    ensures Survives(n, data, parent) <==> Spaced(n, data, parent)
    decreases data, 1
  {
    match data
    case Object(fields) =>
      if Passthrough(parent) {
        ValuesRoundTrip(n, fields);
      } else {
        FieldsRoundTrip(n, fields);
      }
    case List(items) => ItemsRoundTrip(n, items, parent);
    case Leaf(_) =>
  }

  // ---------- with the two name conversions ----------

  function ConfigNames(): Names {
    Names(CamelToSnake, SnakeToCamel, key => AreWords(Split(key)), key => NoShortPair(Split(key)[1..]))
  }

  lemma {:induction false} JoinSplit(key: string)
    ensures Join(Split(key)) == key
  {
    if key != "" {
      JoinSplit(key[1..]);
      var rest := Split(key[1..]);
      if key[0] == '_' {
        assert ([""] + rest)[1..] == rest;
        assert Tail(rest) == "_" + rest[0] + Tail(rest[1..]) == "_" + Join(rest);
        assert Join([""] + rest) == "" + Tail(rest);
      } else {
        var parts := [[key[0]] + rest[0]] + rest[1..];
        assert parts[1..] == rest[1..];
        assert Join(parts) == [key[0]] + rest[0] + Tail(rest[1..]) == [key[0]] + Join(rest);
      }
    }
  }

  lemma {:induction false} KeySurvives(key: string)
    requires AreWords(Split(key))
    ensures CamelToSnake(SnakeToCamel(key)) == key <==> NoShortPair(Split(key)[1..])
  {
    JoinSplit(key);
    RoundTripExactly(Split(key));
  }

  /** A configuration tree whose converted keys are lower-case words joined by single
      underscores survives exactly when no such key has two neighbouring one-letter words
      behind its first word. */
  lemma {:induction false} ConfigRoundTripExactly(data: Tree)
    requires WellFormed(ConfigNames(), data, None)
    ensures ConvertKeys(ConfigNames(), ConvertToCamel(ConfigNames(), data, None), None) == data
            <==> Spaced(ConfigNames(), data, None)
  {
    var n := ConfigNames();
    forall key | n.word(key) ensures n.ok(key) <==> n.snake(n.camel(key)) == key {
      KeySurvives(key);
    }
    TreeRoundTrip(n, data, None);
  }

  // ---------- whose keys are converted ----------

  predicate HasKey(fields: seq<Field>, key: string) {
    exists i | 0 <= i < |fields| :: fields[i].key == key
  }

  /** Same keys, in the same order. */
  predicate SameKeys(a: seq<Field>, b: seq<Field>) {
    |a| == |b| && forall i | 0 <= i < |a| :: a[i].key == b[i].key
  }

  lemma {:induction false} ValuesKeepKeys(n: Names, fields: seq<Field>)
    ensures SameKeys(CamelValues(n, fields), fields) && SameKeys(ConvertValues(n, fields), fields)
  {
    if fields != [] {
      ValuesKeepKeys(n, fields[..|fields| - 1]);
    }
  }

  /** Below `extra_headers`, `env` and `mcp_servers`, the keys of an object stay as they are, in
      both directions. */
  lemma {:induction false} UserKeysStay(n: Names, fields: seq<Field>, parent: string)
    requires parent in ["extra_headers", "env", "mcp_servers"]
    ensures var there, back := ConvertToCamel(n, Object(fields), Some(parent)), ConvertKeys(n, Object(fields), Some(parent));
            there.Object? && SameKeys(there.fields, fields) && back.Object? && SameKeys(back.fields, fields)
  {
    ValuesKeepKeys(n, fields);
  }

  lemma {:induction false} PutKeys(fields: seq<Field>, key: string, value: Tree, k: string)
    ensures HasKey(Put(fields, key, value), k) <==> HasKey(fields, k) || k == key
  {
    var out := Put(fields, key, value);
    if fields == [] {
      assert out[0].key == key;
    } else if fields[0].key == key {
      assert out[0].key == key;
      assert forall i | 1 <= i < |out| :: out[i] == fields[i];
    } else {
      PutKeys(fields[1..], key, value, k);
      var rest := Put(fields[1..], key, value);
      OneKeyMore(fields[0], fields[1..], k);
      OneKeyMore(fields[0], rest, k);
      assert [fields[0]] + fields[1..] == fields;
    }
  }

  lemma {:induction false} OneKeyMore(first: Field, rest: seq<Field>, k: string)
    ensures HasKey([first] + rest, k) <==> first.key == k || HasKey(rest, k)
  {
    var all := [first] + rest;
    if HasKey(rest, k) {
      var i :| 0 <= i < |rest| && rest[i].key == k;
      assert all[i + 1].key == k;
    }
    if HasKey(all, k) {
      var i :| 0 <= i < |all| && all[i].key == k;
      assert i > 0 ==> all[i] == rest[i - 1];
    }
    assert all[0] == first;
  }

  /** Some field's key becomes `k`. */
  predicate Becomes(convert: string -> string, fields: seq<Field>, k: string) {
    exists i | 0 <= i < |fields| :: convert(fields[i].key) == k
  }

  lemma {:induction false} BecomesMore(convert: string -> string, fields: seq<Field>, k: string)
    requires fields != []
    ensures Becomes(convert, fields, k) <==>
              Becomes(convert, fields[..|fields| - 1], k) || convert(fields[|fields| - 1].key) == k
  {
    var front := fields[..|fields| - 1];
    if Becomes(convert, front, k) {
      var i :| 0 <= i < |front| && convert(front[i].key) == k;
      assert fields[i] == front[i];
    }
    if Becomes(convert, fields, k) {
      var i :| 0 <= i < |fields| && convert(fields[i].key) == k;
      assert i < |front| ==> front[i] == fields[i];
    }
  }

  lemma {:induction false} FieldsConvertKeys(n: Names, fields: seq<Field>, k: string)
    ensures HasKey(CamelFields(n, fields), k) <==> Becomes(n.camel, fields, k)
    ensures HasKey(ConvertFields(n, fields), k) <==> Becomes(n.snake, fields, k)
  {
    if fields != [] {
      var front, last := fields[..|fields| - 1], fields[|fields| - 1];
      FieldsConvertKeys(n, front, k);
      BecomesMore(n.camel, fields, k);
      BecomesMore(n.snake, fields, k);
      PutKeys(CamelFields(n, front), n.camel(last.key), ConvertToCamel(n, last.data, Some(last.key)), k);
      PutKeys(ConvertFields(n, front), n.snake(last.key), ConvertKeys(n, last.data, Some(n.snake(last.key))), k);
    }
  }

  /** Everywhere else the keys of an object become exactly the converted ones. */
  lemma {:induction false} OtherKeysAreConverted(n: Names, fields: seq<Field>, parent: Option<string>, k: string)
    requires parent.None? || parent.value !in ["extra_headers", "env", "mcp_servers"]
    ensures var there, back := ConvertToCamel(n, Object(fields), parent), ConvertKeys(n, Object(fields), parent);
            && there.Object? && (HasKey(there.fields, k) <==> Becomes(n.camel, fields, k))
            && back.Object? && (HasKey(back.fields, k) <==> Becomes(n.snake, fields, k))
  {
    FieldsConvertKeys(n, fields, k);
  }
}
