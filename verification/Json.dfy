/** JSON values. An object is its members in insertion order, with unique keys. */
module Json {
  import opened Prelude

  datatype Json =
    | Null
    | Bool(b: bool)
    | Num(n: real)
    | Str(s: string)
    | Arr(items: seq<Json>)
    | Obj(members: seq<Member>)

  datatype Member = Member(key: string, value: Json)

  /** `dict.get`. */
  function Get(members: seq<Member>, key: string): (found: Option<Json>)
  {
    if members == [] then None
    else if members[0].key == key then Some(members[0].value)
    else Get(members[1..], key)
  }

  predicate Has(members: seq<Member>, key: string) {
    Get(members, key).Some?
  }

  predicate UniqueKeys(members: seq<Member>) {
    forall i, j | 0 <= i < j < |members| :: members[i].key != members[j].key
  }

  /** No object anywhere repeats a key: what a Python dict guarantees. */
  predicate WellFormed(v: Json) {
    match v
    case Arr(items) => forall i | 0 <= i < |items| :: WellFormed(items[i])
    case Obj(members) => UniqueKeys(members) && forall i | 0 <= i < |members| :: WellFormed(members[i].value)
    case _ => true
  }

  lemma {:induction false} GetAt(members: seq<Member>, i: nat)
    requires UniqueKeys(members) && i < |members|
    ensures Get(members, members[i].key) == Some(members[i].value)
  {
    if i > 0 {
      assert members[1..][i - 1] == members[i];
      GetAt(members[1..], i - 1);
    }
  }

  lemma {:induction false} GetIsMember(members: seq<Member>, key: string) returns (i: nat)
    requires Has(members, key)
    ensures i < |members| && members[i] == Member(key, Get(members, key).value)
  {
    if members[0].key == key {
      i := 0;
    } else {
      i := GetIsMember(members[1..], key);
      i := i + 1;
    }
  }

  lemma {:induction false} GetNone(members: seq<Member>, key: string)
    ensures !Has(members, key) <==> forall i | 0 <= i < |members| :: members[i].key != key
  {
    if members != [] {
      GetNone(members[1..], key);
      assert forall i | 1 <= i < |members| :: members[i] == members[1..][i - 1];
      assert forall i | 0 <= i < |members[1..]| :: members[1..][i] == members[i + 1];
    }
  }

  // ---------- positions ----------

  datatype Segment = Key(key: string) | Index(index: nat)

  /** Where a value sits inside a document. After `json.loads` no two positions
      share a container object, so this is object identity. */
  type Path = seq<Segment>

  function At(v: Json, path: Path): Option<Json>
    decreases |path|
  {
    if path == [] then Some(v)
    else
      match path[0]
      case Key(key) => if v.Obj? && Has(v.members, key) then At(Get(v.members, key).value, path[1..]) else None
      case Index(i) => if v.Arr? && i < |v.items| then At(v.items[i], path[1..]) else None
  }

  lemma {:induction false} AtAppend(v: Json, p: Path, q: Path)
    requires At(v, p).Some?
    ensures At(v, p + q) == At(At(v, p).value, q)
    decreases |p|
  {
    if p == [] {
      assert p + q == q;
    } else {
      assert (p + q)[0] == p[0] && (p + q)[1..] == p[1..] + q;
      match p[0] {
        case Key(key) => AtAppend(Get(v.members, key).value, p[1..], q);
        case Index(i) => AtAppend(v.items[i], p[1..], q);
      }
    }
  }

  lemma {:induction false} AtWellFormed(v: Json, p: Path)
    requires WellFormed(v) && At(v, p).Some?
    ensures WellFormed(At(v, p).value)
    decreases |p|
  {
    if p != [] {
      match p[0] {
        case Key(key) =>
          var i := GetIsMember(v.members, key);
          AtWellFormed(v.members[i].value, p[1..]);
        case Index(i) => AtWellFormed(v.items[i], p[1..]);
      }
    }
  }
}
