/**
 The part of an OpenAPI document that the compatibility checker reads: schema nodes, the named
 schemas they refer to, and what it means for a JSON value to satisfy a schema.
 */
module OpenApiSchema {
  import opened Options
  import opened Sets

  datatype Json =
    | Null
    | Bool(b: bool)
    | Num(n: real)
    | Str(s: string)
    | Arr(elements: seq<Json>)
    | Obj(fields: map<string, Json>)

  datatype Properties = NoProperties | Properties(fields: map<string, Schema>) {
    /** `schema.properties ?? {}` */
    function Fields(): map<string, Schema> {
      if NoProperties? then map[] else fields
    }
  }

  /** One schema node. `closed` is `additionalProperties === false`. */
  datatype Schema = Schema(
    ref: Option<string>,
    typ: Option<string>,
    enum: Option<set<Json>>,
    nullable: bool,
    minLength: Option<int>,
    maxLength: Option<int>,
    minimum: Option<real>,
    maximum: Option<real>,
    pattern: Option<string>,
    items: Option<Schema>,
    properties: Properties,
    required: set<string>,
    closed: bool)

  const Any := Schema(None, None, None, false, None, None, None, None, None, None, NoProperties, {}, false)

  /** The named schemas of a snapshot (`root.schemas`). */
  type Document = map<string, Schema>

  // ---------------------------------------------------------------- references

  /** `ref.split('/').at(-1)` */
  function LastSegment(ref: string): string {
    if ref == "" || ref[|ref| - 1] == '/' then "" else LastSegment(ref[..|ref| - 1]) + [ref[|ref| - 1]]
  }

  /** `current?.$ref` is truthy. */
  predicate HasRef(s: Option<Schema>) {
    s.Some? && s.value.ref.Some? && s.value.ref.value != ""
  }

  function Target(ref: string, doc: Document): Option<Schema> {
    if LastSegment(ref) in doc then Some(doc[LastSegment(ref)]) else None
  }

  function RefOf(s: Option<Schema>): set<string> {
    if HasRef(s) then {s.value.ref.value} else {}
  }

  /** Every reference that the resolution loop can meet after its first step. */
  function DocumentRefs(doc: Document): set<string> {
    set name | name in doc && HasRef(Some(doc[name])) :: doc[name].ref.value
  }

  function ResolveFrom(s: Option<Schema>, doc: Document, seen: set<string>): Option<Schema>
    decreases |DocumentRefs(doc) + RefOf(s) - seen|
  {
    if HasRef(s) && s.value.ref.value !in seen then
      StepShrinks(s, doc, seen);
      ResolveFrom(Target(s.value.ref.value, doc), doc, seen + {s.value.ref.value})
    else
      s
  }

  function Resolve(s: Option<Schema>, doc: Document): Option<Schema> {
    ResolveFrom(s, doc, {})
  }

  lemma StepShrinks(s: Option<Schema>, doc: Document, seen: set<string>)
    requires HasRef(s) && s.value.ref.value !in seen
    ensures var ref := s.value.ref.value;
      |DocumentRefs(doc) + RefOf(Target(ref, doc)) - (seen + {ref})| < |DocumentRefs(doc) + RefOf(s) - seen|
  {
    var ref := s.value.ref.value;
    var before := DocumentRefs(doc) + RefOf(s) - seen;
    var after := DocumentRefs(doc) + RefOf(Target(ref, doc)) - (seen + {ref});
    assert after <= before - {ref} && ref in before;
    SubsetSize(after, before - {ref});
  }

  /** `resolvedSchema`: follow references until none is left, or one is met a second time. */
  method ResolvedSchema(schema: Option<Schema>, doc: Document) returns (current: Option<Schema>)
    ensures current == Resolve(schema, doc)
  {
    current := schema;
    var seen: set<string> := {};
    while HasRef(current) && current.value.ref.value !in seen
      invariant ResolveFrom(current, doc, seen) == Resolve(schema, doc)
      decreases |DocumentRefs(doc) + RefOf(current) - seen|
    {
      StepShrinks(current, doc, seen);
      var ref := current.value.ref.value;
      seen := seen + {ref};
      current := Target(ref, doc);
    }
  }

  // ---------------------------------------------------------------- acyclic documents

  /** Every reference in `s` that resolution can reach leads to a name ranked below `k`. */
  ghost predicate RefsBelow(s: Schema, doc: Document, rank: map<string, nat>, k: nat)
    requires doc.Keys <= rank.Keys
    decreases s
  {
    if HasRef(Some(s)) then
      var name := LastSegment(s.ref.value);
      name in doc ==> rank[name] < k
    else
      && (s.items.Some? ==> RefsBelow(s.items.value, doc, rank, k))
      && (s.properties.Properties? ==>
            forall name :: name in s.properties.fields ==> RefsBelow(s.properties.fields[name], doc, rank, k))
  }

  /** The reference graph has no cycle: `rank` drops along every reference. */
  ghost predicate Ranked(doc: Document, rank: map<string, nat>) {
    && doc.Keys <= rank.Keys
    && forall name :: name in doc ==> RefsBelow(doc[name], doc, rank, rank[name])
  }

  ghost predicate NodeBelow(s: Option<Schema>, doc: Document, rank: map<string, nat>, k: nat) {
    Ranked(doc, rank) && (s.Some? ==> RefsBelow(s.value, doc, rank, k))
  }

  /** The rank under which the children of the resolved node lie. */
  ghost function ChildRank(s: Option<Schema>, doc: Document, rank: map<string, nat>, k: nat): nat
    requires NodeBelow(s, doc, rank, k)
    decreases k
  {
    if HasRef(s) && LastSegment(s.value.ref.value) in doc then
      var name := LastSegment(s.value.ref.value);
      ChildRank(Some(doc[name]), doc, rank, rank[name])
    else
      k
  }

  /** On an acyclic document resolution always ends at a node without a reference. */
  lemma ResolveEnds(s: Option<Schema>, doc: Document, rank: map<string, nat>, k: nat, seen: set<string>)
    requires NodeBelow(s, doc, rank, k)
    requires forall ref :: ref in seen ==> LastSegment(ref) in doc && k <= rank[LastSegment(ref)]
    ensures var r := ResolveFrom(s, doc, seen); var k' := ChildRank(s, doc, rank, k);
      && !HasRef(r)
      && (r.Some? ==> RefsBelow(r.value, doc, rank, k'))
      && ((r == s && k' == k) || r.None? || k' < k)
    decreases k
  {
    if HasRef(s) {
      var ref := s.value.ref.value;
      var name := LastSegment(ref);
      if name in doc {
        ResolveEnds(Some(doc[name]), doc, rank, rank[name], seen + {ref});
      }
    }
  }

  /** What was met before does not matter on an acyclic document. */
  lemma SeenIsIrrelevant(s: Option<Schema>, doc: Document, rank: map<string, nat>, k: nat,
                         seen: set<string>, seen': set<string>)
    requires NodeBelow(s, doc, rank, k)
    requires forall ref :: ref in seen || ref in seen' ==> LastSegment(ref) in doc && k <= rank[LastSegment(ref)]
    ensures ResolveFrom(s, doc, seen) == ResolveFrom(s, doc, seen')
    decreases k
  {
    if HasRef(s) {
      var ref := s.value.ref.value;
      var name := LastSegment(ref);
      if name in doc {
        SeenIsIrrelevant(Some(doc[name]), doc, rank, rank[name], seen + {ref}, seen' + {ref});
      }
    }
  }

  /** There, a node with a reference stands for the node it names, or for nothing, and any other for itself. */
  lemma ResolveUnfolds(s: Option<Schema>, doc: Document, rank: map<string, nat>, k: nat)
    requires NodeBelow(s, doc, rank, k)
    ensures Resolve(s, doc) ==
      if s.Some? && s.value.ref.Some? && s.value.ref.value != "" then
        var name := LastSegment(s.value.ref.value);
        if name in doc then Resolve(Some(doc[name]), doc) else None
      else s
  {
    if HasRef(s) {
      var ref := s.value.ref.value;
      var name := LastSegment(ref);
      assert ResolveFrom(s, doc, {}) == ResolveFrom(Target(ref, doc), doc, {} + {ref});
      if name in doc {
        SeenIsIrrelevant(Some(doc[name]), doc, rank, rank[name], {} + {ref}, {});
      }
    }
  }

  /** The name in a reference is what follows its last slash. */
  lemma {:induction false} NameAfterSlash(prefix: string, name: string)
    requires '/' !in name
    ensures LastSegment(name) == name && LastSegment(prefix + "/" + name) == name
  {
    var ref := prefix + "/" + name;
    if name == "" {
      assert ref[|ref| - 1] == '/';
    } else {
      var front := name[..|name| - 1];
      NameAfterSlash(prefix, front);
      assert ref[..|ref| - 1] == prefix + "/" + front;
      assert name == front + [name[|name| - 1]];
    }
  }

  // ---------------------------------------------------------------- meaning

  /** `type` (JSON Schema Validation 2020-12, section 6.1.1). */
  predicate HasType(t: string, v: Json) {
    match v
    case Null => t == "null"
    case Bool(_) => t == "boolean"
    case Num(n) => t == "number" || (t == "integer" && n == n.Floor as real)
    case Str(_) => t == "string"
    case Arr(_) => t == "array"
    case Obj(_) => t == "object"
  }

  /** What a regular expression accepts; the model works for every choice of it. */
  type Regex = (string, string) -> bool

  /** The keywords of one node, leaving its items and properties aside. An absent keyword, and the
      empty pattern, constrain nothing; `nullable` adds null to an explicit type. */
  predicate KeywordsHold(s: Schema, v: Json, matches: Regex) {
    && (s.typ.Some? ==> HasType(s.typ.value, v) || (s.nullable && v.Null?))
    && (s.enum.Some? ==> v in s.enum.value)
    && (v.Str? ==>
          && (s.minLength.Some? ==> s.minLength.value <= |v.s|)
          && (s.maxLength.Some? ==> |v.s| <= s.maxLength.value)
          && (s.pattern.Some? && s.pattern.value != "" ==> matches(s.pattern.value, v.s)))
    && (v.Num? ==>
          && (s.minimum.Some? ==> s.minimum.value <= v.n)
          && (s.maximum.Some? ==> v.n <= s.maximum.value))
    && (v.Obj? ==>
          && s.required <= v.fields.Keys
          && (s.closed ==> v.fields.Keys <= s.properties.Fields().Keys))
  }

  /** A JSON value satisfies a schema. A missing schema, or a reference to nothing, accepts
      everything. The recursion is on the value, so recursive schemas have a meaning too. */
  ghost predicate Valid(s: Option<Schema>, doc: Document, v: Json, matches: Regex)
    decreases v
  {
    var r := Resolve(s, doc);
    r.Some? ==>
      && KeywordsHold(r.value, v, matches)
      && (v.Arr? ==> forall i :: 0 <= i < |v.elements| ==> Valid(r.value.items, doc, v.elements[i], matches))
      && (v.Obj? ==> forall name :: name in v.fields && name in r.value.properties.Fields() ==>
            Valid(Some(r.value.properties.Fields()[name]), doc, v.fields[name], matches))
  }

  /** The meaning, keyword by keyword, of a node without a reference: one lemma for each kind of value. */
  lemma ScalarMeaning(s: Schema, doc: Document, v: Json, matches: Regex)
    requires !HasRef(Some(s)) && !v.Arr? && !v.Obj?
    ensures Valid(Some(s), doc, v, matches) <==>
      && (s.enum.Some? ==> v in s.enum.value)
      && match v
         case Null => s.typ.None? || s.typ == Some("null") || s.nullable
         case Bool(_) => s.typ.None? || s.typ == Some("boolean")
         case Num(n) =>
           && (s.typ.None? || s.typ == Some("number") || (s.typ == Some("integer") && n == n.Floor as real))
           && (s.minimum.Some? ==> n >= s.minimum.value) && (s.maximum.Some? ==> n <= s.maximum.value)
         case Str(x) =>
           && (s.typ.None? || s.typ == Some("string"))
           && (s.minLength.Some? ==> |x| >= s.minLength.value) && (s.maxLength.Some? ==> |x| <= s.maxLength.value)
           && (s.pattern.Some? && s.pattern.value != "" ==> matches(s.pattern.value, x))
         case _ => true
  {
    assert Resolve(Some(s), doc) == Some(s);
  }

  lemma ArrayMeaning(s: Schema, doc: Document, v: Json, matches: Regex)
    requires !HasRef(Some(s)) && v.Arr?
    ensures Valid(Some(s), doc, v, matches) <==>
      && (s.typ.None? || s.typ == Some("array")) && (s.enum.Some? ==> v in s.enum.value)
      && (s.items.Some? ==> forall i :: 0 <= i < |v.elements| ==> Valid(s.items, doc, v.elements[i], matches))
  {
    assert Resolve(Some(s), doc) == Some(s) && Resolve(None, doc) == None;
  }

  lemma ObjectMeaning(s: Schema, doc: Document, v: Json, matches: Regex)
    requires !HasRef(Some(s)) && v.Obj?
    ensures Valid(Some(s), doc, v, matches) <==>
      && (s.typ.None? || s.typ == Some("object")) && (s.enum.Some? ==> v in s.enum.value)
      && (forall name :: name in s.required ==> name in v.fields)
      && (s.closed ==> forall name :: name in v.fields ==> s.properties.Properties? && name in s.properties.fields)
      && (s.properties.Properties? ==> forall name :: name in v.fields && name in s.properties.fields ==>
            Valid(Some(s.properties.fields[name]), doc, v.fields[name], matches))
  {
    assert Resolve(Some(s), doc) == Some(s);
  }
}
