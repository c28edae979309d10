/** The keyword tables and the two name grammars of the MCP schema checks
    (k2do/agent/tools/mcp.py, 82-162 and 202-242). */
module SchemaKeywords {
  import opened Prelude
  import opened Json

  const ANNOTATION_KEYS: seq<string> :=
    ["$comment", "default", "deprecated", "description", "examples", "readOnly", "title", "writeOnly"]
  const MAP_KEYS: seq<string> := ["$defs", "dependentSchemas", "properties"]
  const BRANCH_KEYS: seq<string> := ["allOf", "anyOf", "oneOf"]
  const LIST_KEYS: seq<string> := BRANCH_KEYS + ["prefixItems"]
  const VALUE_KEYS: seq<string> :=
    ["additionalProperties", "contains", "else", "if", "items", "not", "propertyNames", "then",
     "unevaluatedItems", "unevaluatedProperties"]
  const LITERAL_KEYS: seq<string> :=
    ["exclusiveMaximum", "exclusiveMinimum", "maxContains", "maxItems", "maxLength", "maxProperties", "maximum",
     "minContains", "minItems", "minLength", "minProperties", "minimum", "multipleOf", "type", "uniqueItems"]
  const JSON_LITERAL_KEYS: seq<string> := ["const", "enum"]
  const FORMATS: seq<string> :=
    ["date", "date-time", "duration", "email", "hostname", "ipv4", "ipv6", "time", "uri", "uuid"]

  const FORBIDDEN_KEYS: seq<string> :=
    ["$anchor", "$dynamicAnchor", "$dynamicRef", "$id", "$recursiveAnchor", "$recursiveRef", "$schema", "$vocabulary",
     "additionalItems", "definitions", "dependencies", "id", "pattern", "patternProperties"]

  const MAX_NAME_CHARACTERS := 64
  const DEFS_PREFIX := "#/$defs/"

  function LowerChar(c: char): char {
    if 'A' <= c <= 'Z' then c - 'A' + 'a' else c
  }

  /** `key.lower().startswith("x-")`; only ASCII letters lower to `x`. */
  predicate IsExtension(key: string) {
    |key| >= 2 && LowerChar(key[0]) == 'x' && key[1] == '-'
  }

  predicate IsAnnotation(key: string) {
    key in ANNOTATION_KEYS || IsExtension(key)
  }

  // ---------- provider-visible names ----------

  predicate NameStart(c: char) {
    'a' <= c <= 'z' || 'A' <= c <= 'Z' || '0' <= c <= '9' || c == '_'
  }

  predicate NameRest(c: char) {
    NameStart(c) || c == '-' || c == '.'
  }

  predicate VisibleName(name: string) {
    && 0 < |name| <= MAX_NAME_CHARACTERS
    && NameStart(name[0])
    && forall i | 1 <= i < |name| :: NameRest(name[i])
  }

  // ---------- local references ----------

  /** JSON Pointer unescaping of one reference token: `~0` is `~`, `~1` is `/`. */
  function Unescape(raw: string): Option<string> {
    if raw == "" then Some("")
    else if raw[0] != '~' then
      match Unescape(raw[1..])
      case None => None
      case Some(rest) => Some([raw[0]] + rest)
    else if |raw| < 2 || raw[1] !in "01" then None
    else
      match Unescape(raw[2..])
      case None => None
      case Some(rest) => Some([if raw[1] == '0' then '~' else '/'] + rest)
  }

  function Prefixed(text: string, rest: Option<string>): Option<string> {
    if rest.None? then None else Some(text + rest.value)
  }

  lemma {:induction false} PlainStep(text: string, tail: string)
    requires tail != "" && tail[0] != '~'
    ensures Prefixed(text, Unescape(tail)) == Prefixed(text + [tail[0]], Unescape(tail[1..]))
  {
    if Unescape(tail[1..]).Some? {
      var rest := Unescape(tail[1..]).value;
      assert text + ([tail[0]] + rest) == text + [tail[0]] + rest;
    }
  }

  lemma {:induction false} EscapeStep(text: string, tail: string)
    requires |tail| >= 2 && tail[0] == '~' && tail[1] in "01"
    ensures Prefixed(text, Unescape(tail))
         == Prefixed(text + [if tail[1] == '0' then '~' else '/'], Unescape(tail[2..]))
  {
    if Unescape(tail[2..]).Some? {
      var c, rest := if tail[1] == '0' then '~' else '/', Unescape(tail[2..]).value;
      assert text + ([c] + rest) == text + [c] + rest;
    }
  }

  /** The scanning loop that unescapes a reference token. */
  method UnescapeToken(raw: string) returns (decoded: Option<string>)
    ensures decoded == Unescape(raw)
  {
    var text := "";
    var position := 0;
    NothingScanned(raw);
    while position < |raw|
      invariant 0 <= position <= |raw|
      invariant Unescape(raw) == Prefixed(text, Unescape(raw[position..]))
    {
      var character := raw[position];
      ghost var tail := raw[position..];
      if character != '~' {
        PlainStep(text, tail);
        assert tail[1..] == raw[position + 1..];
        text := text + [character];
        position := position + 1;
      } else if position + 1 >= |raw| || raw[position + 1] !in "01" {
        assert Unescape(tail).None?;
        return None;
      } else {
        EscapeStep(text, tail);
        assert tail[2..] == raw[position + 2..];
        text := text + [if raw[position + 1] == '0' then '~' else '/'];
        position := position + 2;
      }
    }
    assert raw[position..] == "" && text + "" == text;
    return Some(text);
  }

  lemma {:induction false} NothingScanned(raw: string)
    ensures Unescape(raw) == Prefixed("", Unescape(raw[0..]))
  {
    assert raw[0..] == raw;
    if Unescape(raw).Some? {
      assert "" + Unescape(raw).value == Unescape(raw).value;
    }
  }

  /** Escaping of one reference token, as in section 3 of RFC 6901. */
  function Escape(text: string): string {
    if text == "" then ""
    else (if text[0] == '~' then "~0" else if text[0] == '/' then "~1" else [text[0]]) + Escape(text[1..])
  }

  /** Unescaping undoes escaping, for every text. */
  lemma {:induction false} UnescapeUndoesEscape(text: string)
    ensures Unescape(Escape(text)) == Some(text)
  {
    if text != "" {
      UnescapeUndoesEscape(text[1..]);
      var head := if text[0] == '~' then "~0" else if text[0] == '/' then "~1" else [text[0]];
      assert (head + Escape(text[1..]))[|head|..] == Escape(text[1..]);
      assert [text[0]] + text[1..] == text;
    }
  }

  /** The definition a `$ref` names, when it is a direct root `$defs` reference. */
  function LocalRefName(reference: Json): Option<string> {
    if !reference.Str? || !(DEFS_PREFIX <= reference.s) then None
    else
      var raw := reference.s[|DEFS_PREFIX|..];
      if '/' in raw then None
      else
        match Unescape(raw)
        case None => None
        case Some(name) => if VisibleName(name) then Some(name) else None
  }

  /** A reference that passes carries no escapes: it is the prefix and the name itself. */
  lemma {:induction false} LocalRefIsCanonical(reference: Json)
    requires LocalRefName(reference).Some?
    ensures reference == Str(DEFS_PREFIX + LocalRefName(reference).value)
  {
    var raw := reference.s[|DEFS_PREFIX|..];
    var name := LocalRefName(reference).value;
    assert forall i | 0 <= i < |name| :: NameRest(name[i]);
    UnescapePlain(raw, name);
    assert reference.s == DEFS_PREFIX + raw;
  }

  lemma {:induction false} PlainUnescapes(text: string)
    requires forall i | 0 <= i < |text| :: text[i] != '~'
    ensures Unescape(text) == Some(text)
  {
    if text != "" {
      PlainUnescapes(text[1..]);
      assert text == [text[0]] + text[1..];
    }
  }

  /** So exactly the prefix followed by a visible name is accepted, and names that definition. */
  lemma {:induction false} LocalRefExactly(reference: Json, name: string)
    ensures LocalRefName(reference) == Some(name) <==> VisibleName(name) && reference == Str(DEFS_PREFIX + name)
  {
    if LocalRefName(reference) == Some(name) {
      LocalRefIsCanonical(reference);
    }
    if VisibleName(name) && reference == Str(DEFS_PREFIX + name) {
      assert (DEFS_PREFIX + name)[|DEFS_PREFIX|..] == name;
      assert forall i | 0 <= i < |name| :: NameRest(name[i]);
      PlainUnescapes(name);
    }
  }

  lemma {:induction false} UnescapePlain(raw: string, text: string)
    requires Unescape(raw) == Some(text)
    requires forall i | 0 <= i < |text| :: text[i] != '~' && text[i] != '/'
    ensures raw == text
  {
    if raw != "" {
      assert text != "" && text[0] != '~' && text[0] != '/';
      assert text[1..] == Unescape(raw[1..]).value;
      UnescapePlain(raw[1..], text[1..]);
      assert raw == [raw[0]] + raw[1..];
    }
  }

  /** `_resolve_local_schema_ref`: root, then `$defs`, then the name. */
  function Resolve(root: Json, reference: Json): Option<Json> {
    match LocalRefName(reference)
    case None => None
    case Some(name) =>
      if !root.Obj? then None
      else
        match Get(root.members, "$defs")
        case Some(Obj(definitions)) => Get(definitions, name)
        case _ => None
  }

  /** A reference resolves to the definition of that name at the root, and to nothing else. */
  lemma {:induction false} ReferenceResolves(members: seq<Member>, definitions: seq<Member>, name: string)
    requires Get(members, "$defs") == Some(Obj(definitions)) && VisibleName(name)
    ensures Resolve(Obj(members), Str("#/$defs/" + name)) == Get(definitions, name)
  {
    LocalRefExactly(Str("#/$defs/" + name), name);
  }
}
