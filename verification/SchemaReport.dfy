/**
 What a report says, issue by issue: each issue is a break that one pair of old and new nodes shows on its
 own keywords, and the pair is found by following the same items and properties from both roots.
 */
module SchemaReport {
  import opened Options
  import opened OpenApiSchema
  import opened SchemaCompare

  // ---------------------------------------------------------------- pairs of nodes

  datatype Edge = Items | Property(name: string)

  /** The path of a node that lies `trail` below `path`. */
  function PathOf(path: string, trail: seq<Edge>): string
    decreases |trail|
  {
    if trail == [] then path
    else PathOf(if trail[0].Items? then path + "[]" else path + "." + trail[0].name, trail[1..])
  }

  datatype Pair = Nowhere | Pair(o: Option<Schema>, n: Option<Schema>)

  /** The old and the new node at the end of a trail. Both must exist and have the same effective type all the
      way down: arrays lead to their items, objects to the properties they share. */
  function Follow(old': Option<Schema>, new': Option<Schema>, od: Document, nd: Document, trail: seq<Edge>): Pair
    decreases |trail|
  {
    var o, n := Resolve(old', od), Resolve(new', nd);
    if trail == [] then Pair(o, n)
    else if o.None? || n.None? || EffectiveType(o.value) != EffectiveType(n.value) then Nowhere
    else
      match trail[0]
      case Items =>
        if EffectiveType(o.value) == Some("array") then Follow(o.value.items, n.value.items, od, nd, trail[1..])
        else Nowhere
      case Property(name) =>
        if EffectiveType(o.value) == Some("object")
           && name in o.value.properties.Fields() && name in n.value.properties.Fields()
        then
          Follow(Some(o.value.properties.Fields()[name]), Some(n.value.properties.Fields()[name]), od, nd, trail[1..])
        else Nowhere
  }

  // ---------------------------------------------------------------- breaks of one pair

  /** The bound appeared, or moved up. */
  predicate Up<T(==)>(was: Option<T>, now: Option<T>, more: (T, T) -> bool) {
    now.Some? && (was.None? || more(now.value, was.value))
  }

  /** A break of two nodes of the same type in a keyword of their own. */
  predicate KeywordBreak(o: Schema, n: Schema, mode: Mode, kind: Kind) {
    match kind
    case InputEnumAdded => mode == Input && o.enum.None? && n.enum.Some?
    case InputEnumRemoved(v) =>
      mode == Input && o.enum.Some? && n.enum.Some? && v in o.enum.value && v !in n.enum.value
    case ResponseEnumDropped => mode == Output && o.enum.Some? && n.enum.None?
    case ResponseEnumAdded(v) =>
      mode == Output && o.enum.Some? && n.enum.Some? && v in n.enum.value && v !in o.enum.value
    case NullableNarrowed => mode == Input && o.nullable && !n.nullable
    case BecameNullable => mode == Output && !o.nullable && n.nullable
    case MinLengthIncreased => mode == Input && Up(o.minLength, n.minLength, (x, y) => x > y)
    case MaxLengthDecreased => mode == Input && Up(o.maxLength, n.maxLength, (x, y) => x < y)
    case MinimumIncreased => mode == Input && Up(o.minimum, n.minimum, (x, y) => x > y)
    case MaximumDecreased => mode == Input && Up(o.maximum, n.maximum, (x, y) => x < y)
    case PatternChanged => mode == Input && n.pattern.Some? && n.pattern.value != "" && n.pattern != o.pattern
    case _ => false
  }

  /** What a pair of nodes shows by itself: at its own path, or under the name of one of its properties. */
  predicate Breaks(o: Option<Schema>, n: Option<Schema>, mode: Mode, name: Option<string>, kind: Kind) {
    if o.None? then false
    else if n.None? then name.None? && kind == SchemaRemoved
    else if EffectiveType(o.value) != EffectiveType(n.value) then
      name.None? && kind == TypeChanged(EffectiveType(o.value), EffectiveType(n.value))
    else if name.None? then
      || KeywordBreak(o.value, n.value, mode, kind)
      || (kind == AdditionalPropertiesRejected && EffectiveType(o.value) == Some("object")
          && mode == Input && !o.value.closed && n.value.closed)
    else
      EffectiveType(o.value) == Some("object") &&
      match kind
      case PropertyRemoved =>
        name.value in o.value.properties.Fields() && name.value !in n.value.properties.Fields()
      case RequiredIncompatible =>
        if mode == Input then name.value in n.value.required && name.value !in o.value.required
        else name.value in o.value.required && name.value !in n.value.required
      case _ => false
  }

  function SpotPath(path: string, name: Option<string>): string {
    if name.None? then path else path + "." + name.value
  }

  /** The break `i` is found at the end of `trail`. */
  ghost predicate FoundAt(old': Option<Schema>, new': Option<Schema>, od: Document, nd: Document, mode: Mode,
                          path: string, i: Issue, trail: seq<Edge>, name: Option<string>) {
    var pair := Follow(old', new', od, nd, trail);
    pair.Pair? && i.path == SpotPath(PathOf(path, trail), name) && Breaks(pair.o, pair.n, mode, name, i.kind)
  }

  /** Some pair of nodes below the two roots shows the break `i`. */
  ghost predicate Shown(old': Option<Schema>, new': Option<Schema>, od: Document, nd: Document, mode: Mode,
                        path: string, i: Issue) {
    exists trail: seq<Edge>, name: Option<string> :: FoundAt(old', new', od, nd, mode, path, i, trail, name)
  }

  // ---------------------------------------------------------------- one pair

  lemma BoundShown(o: Schema, n: Schema, path: string, i: Issue)
    ensures i in BoundIssues(o, n, path) <==>
      i.path == path && KeywordBreak(o, n, Input, i.kind)
      && (i.kind.MinLengthIncreased? || i.kind.MaxLengthDecreased?
          || i.kind.MinimumIncreased? || i.kind.MaximumDecreased?)
  {
  }

  lemma EnumShown(o: Schema, n: Schema, mode: Mode, path: string, i: Issue)
    ensures i in EnumIssues(o, n, mode, path) <==>
      i.path == path && KeywordBreak(o, n, mode, i.kind)
      && (i.kind.InputEnumAdded? || i.kind.InputEnumRemoved?
          || i.kind.ResponseEnumDropped? || i.kind.ResponseEnumAdded?)
  {
  }

  lemma KeywordShown(o: Schema, n: Schema, mode: Mode, path: string, i: Issue)
    ensures i in KeywordIssues(o, n, mode, path) <==> i.path == path && KeywordBreak(o, n, mode, i.kind)
  {
    hide EnumIssues, BoundIssues, Up;
    EnumShown(o, n, mode, path, i);
    BoundShown(o, n, path, i);
  }

  lemma ObjectShown(o: Schema, n: Schema, mode: Mode, path: string, i: Issue)
    requires EffectiveType(o) == EffectiveType(n) == Some("object")
    ensures i in ObjectIssues(o, n, mode, path) <==>
      || (i == Issue(path, AdditionalPropertiesRejected) && mode == Input && !o.closed && n.closed)
      || (i.kind == RequiredIncompatible && exists name: string ::
            i.path == SpotPath(path, Some(name)) && Breaks(Some(o), Some(n), mode, Some(name), RequiredIncompatible))
  {
    if i in ObjectIssues(o, n, mode, path) && i.kind == RequiredIncompatible {
      var name :| name in Unmatched(o, n, mode) && i == Issue(path + "." + name, RequiredIncompatible);
      assert i.path == SpotPath(path, Some(name)) && Breaks(Some(o), Some(n), mode, Some(name), RequiredIncompatible);
    }
    forall name: string | i.kind == RequiredIncompatible && i.path == SpotPath(path, Some(name))
                          && Breaks(Some(o), Some(n), mode, Some(name), RequiredIncompatible)
      ensures i in ObjectIssues(o, n, mode, path)
    {
      assert name in Unmatched(o, n, mode);
      assert i == Issue(path + "." + name, RequiredIncompatible);
    }
  }

  // ---------------------------------------------------------------- whole schemas

  /** Where the issues of two nodes of the same type come from. */
  lemma NodeMembers(o: Schema, n: Schema, od: Document, nd: Document, mode: Mode, path: string,
                    rank: map<string, nat>, k: nat, i: Issue)
    requires NodeBelow(Some(o), od, rank, k) && !HasRef(Some(o)) && EffectiveType(o) == EffectiveType(n)
    ensures i in NodeIssues(o, n, od, nd, mode, path, rank, k) <==>
      || i in KeywordIssues(o, n, mode, path)
      || (EffectiveType(o) == Some("array") && i in Issues(o.items, n.items, od, nd, mode, path + "[]", rank, k))
      || (EffectiveType(o) == Some("object") && i in ObjectIssues(o, n, mode, path))
      || (EffectiveType(o) == Some("object") && InProperty(o, n, od, nd, mode, path, rank, k, i))
  {
    hide KeywordIssues, ObjectIssues, OneProperty, Issues;
    if EffectiveType(o) == Some("object") {
      PropertyMembers(o, n, od, nd, mode, path, rank, k, i);
    }
    hide PropertyIssues, InProperty;
  }

  ghost predicate InProperty(o: Schema, n: Schema, od: Document, nd: Document, mode: Mode, path: string,
                             rank: map<string, nat>, k: nat, i: Issue)
    requires NodeBelow(Some(o), od, rank, k) && !HasRef(Some(o))
  {
    exists field :: field in o.properties.Fields() && i in OneProperty(o, n, od, nd, mode, path, rank, k, field)
  }

  lemma PropertyMembers(o: Schema, n: Schema, od: Document, nd: Document, mode: Mode, path: string,
                        rank: map<string, nat>, k: nat, i: Issue)
    requires NodeBelow(Some(o), od, rank, k) && !HasRef(Some(o))
    ensures i in PropertyIssues(o, n, od, nd, mode, path, rank, k, o.properties.Fields().Keys) <==>
      InProperty(o, n, od, nd, mode, path, rank, k, i)
  {
    hide OneProperty;
  }

  /** A break that one pair shows is reported. */
  lemma {:induction false} ShownIsReported(old': Option<Schema>, new': Option<Schema>, od: Document, nd: Document,
      mode: Mode, path: string, rank: map<string, nat>, k: nat, i: Issue, trail: seq<Edge>, name: Option<string>)
    requires NodeBelow(old', od, rank, k)
    requires FoundAt(old', new', od, nd, mode, path, i, trail, name)
    ensures i in Issues(old', new', od, nd, mode, path, rank, k)
    decreases |trail|
  {
    var o, n := Resolve(old', od), Resolve(new', nd);
    ResolveEnds(old', od, rank, k, {});
    if o.Some? && n.Some? && EffectiveType(o.value) == EffectiveType(n.value) {
      var k' := ChildRank(old', od, rank, k);
      NodeMembers(o.value, n.value, od, nd, mode, path, rank, k', i);
      hide NodeIssues, Breaks;
      if trail == [] {
        PairIsReported(o.value, n.value, od, nd, mode, path, rank, k', i, name);
      } else if trail[0].Items? {
        ShownIsReported(o.value.items, n.value.items, od, nd, mode, path + "[]", rank, k', i, trail[1..], name);
      } else {
        var p, q, field := o.value.properties.Fields(), n.value.properties.Fields(), trail[0].name;
        ShownIsReported(Some(p[field]), Some(q[field]), od, nd, mode, path + "." + field, rank, k', i, trail[1..],
                        name);
        assert i in OneProperty(o.value, n.value, od, nd, mode, path, rank, k', field);
      }
    }
  }

  lemma PairIsReported(o: Schema, n: Schema, od: Document, nd: Document, mode: Mode, path: string,
                       rank: map<string, nat>, k: nat, i: Issue, name: Option<string>)
    requires NodeBelow(Some(o), od, rank, k) && !HasRef(Some(o)) && EffectiveType(o) == EffectiveType(n)
    requires i.path == SpotPath(path, name) && Breaks(Some(o), Some(n), mode, name, i.kind)
    ensures i in NodeIssues(o, n, od, nd, mode, path, rank, k)
  {
    hide KeywordIssues, ObjectIssues, KeywordBreak, NodeIssues;
    KeywordShown(o, n, mode, path, i);
    NodeMembers(o, n, od, nd, mode, path, rank, k, i);
    if EffectiveType(o) == Some("object") {
      ObjectShown(o, n, mode, path, i);
      if name.Some? && i.kind == PropertyRemoved {
        assert i in OneProperty(o, n, od, nd, mode, path, rank, k, name.value);
      }
    }
  }

  /** A reported issue is a break that some pair shows. */
  lemma {:induction false} ReportedIsShown(old': Option<Schema>, new': Option<Schema>, od: Document, nd: Document,
      mode: Mode, path: string, rank: map<string, nat>, k: nat, i: Issue)
    returns (trail: seq<Edge>, name: Option<string>)
    requires NodeBelow(old', od, rank, k)
    requires i in Issues(old', new', od, nd, mode, path, rank, k)
    ensures FoundAt(old', new', od, nd, mode, path, i, trail, name)
    decreases k, old'.Some?, old'.GetOr(Any), 2
  {
    var o, n := Resolve(old', od), Resolve(new', nd);
    trail, name := [], None;
    if n.Some? {
      ResolveEnds(old', od, rank, k, {});
      if EffectiveType(o.value) == EffectiveType(n.value) {
        trail, name := NodeReportedIsShown(o.value, n.value, od, nd, mode, path, rank, ChildRank(old', od, rank, k), i);
        SameFrom(old', new', od, nd, mode, path, i, trail, name);
      }
    }
  }

  /** A trail from two resolved nodes is one from the schemas that led to them. */
  lemma SameFrom(old': Option<Schema>, new': Option<Schema>, od: Document, nd: Document, mode: Mode, path: string,
                 i: Issue, trail: seq<Edge>, name: Option<string>)
    requires Resolve(old', od).Some? && Resolve(new', nd).Some?
    requires NodeFoundAt(Resolve(old', od).value, Resolve(new', nd).value, od, nd, mode, path, i, trail, name)
    ensures FoundAt(old', new', od, nd, mode, path, i, trail, name)
  {
  }

  /** As `FoundAt`, from two nodes that are resolved already. */
  ghost predicate NodeFoundAt(o: Schema, n: Schema, od: Document, nd: Document, mode: Mode, path: string, i: Issue,
                              trail: seq<Edge>, name: Option<string>) {
    if trail == [] then i.path == SpotPath(path, name) && Breaks(Some(o), Some(n), mode, name, i.kind)
    else
      EffectiveType(o) == EffectiveType(n) &&
      match trail[0]
      case Items =>
        && EffectiveType(o) == Some("array")
        && FoundAt(o.items, n.items, od, nd, mode, path + "[]", i, trail[1..], name)
      case Property(field) =>
        && EffectiveType(o) == Some("object")
        && field in o.properties.Fields() && field in n.properties.Fields()
        && FoundAt(Some(o.properties.Fields()[field]), Some(n.properties.Fields()[field]), od, nd, mode,
                   path + "." + field, i, trail[1..], name)
  }

  lemma {:induction false} NodeReportedIsShown(o: Schema, n: Schema, od: Document, nd: Document, mode: Mode,
      path: string, rank: map<string, nat>, k: nat, i: Issue)
    returns (trail: seq<Edge>, name: Option<string>)
    requires NodeBelow(Some(o), od, rank, k) && !HasRef(Some(o)) && EffectiveType(o) == EffectiveType(n)
    requires i in NodeIssues(o, n, od, nd, mode, path, rank, k)
    ensures NodeFoundAt(o, n, od, nd, mode, path, i, trail, name)
    decreases k, true, o, 1
  {
    hide KeywordIssues, ObjectIssues, KeywordBreak, NodeIssues, FoundAt;
    trail, name := [], None;
    NodeMembers(o, n, od, nd, mode, path, rank, k, i);
    KeywordShown(o, n, mode, path, i);
    if i !in KeywordIssues(o, n, mode, path) {
      if EffectiveType(o) == Some("array") {
        var rest;
        rest, name := ReportedIsShown(o.items, n.items, od, nd, mode, path + "[]", rank, k, i);
        trail := [Items] + rest;
        assert trail[1..] == rest;
      } else if i in ObjectIssues(o, n, mode, path) {
        ObjectShown(o, n, mode, path, i);
        if i.kind == RequiredIncompatible {
          var field: string :| i.path == SpotPath(path, Some(field))
            && Breaks(Some(o), Some(n), mode, Some(field), RequiredIncompatible);
          name := Some(field);
        }
      } else {
        var field :| field in o.properties.Fields() && i in OneProperty(o, n, od, nd, mode, path, rank, k, field);
        if field !in n.properties.Fields() {
          name := Some(field);
        } else {
          var rest;
          rest, name := ReportedIsShown(Some(o.properties.Fields()[field]), Some(n.properties.Fields()[field]), od, nd,
                                        mode, path + "." + field, rank, k, i);
          trail := [Property(field)] + rest;
          assert trail[1..] == rest;
        }
      }
    }
  }

  /** An issue is reported exactly when some pair of nodes below the two roots shows that break itself. */
  lemma ReportIsWhatIsShown(old': Option<Schema>, new': Option<Schema>, od: Document, nd: Document, mode: Mode,
                            path: string, rank: map<string, nat>, k: nat, i: Issue)
    requires NodeBelow(old', od, rank, k)
    ensures i in Issues(old', new', od, nd, mode, path, rank, k) <==> Shown(old', new', od, nd, mode, path, i)
  {
    hide Issues, FoundAt;
    if i in Issues(old', new', od, nd, mode, path, rank, k) {
      var trail, name := ReportedIsShown(old', new', od, nd, mode, path, rank, k, i);
    }
    if Shown(old', new', od, nd, mode, path, i) {
      var trail: seq<Edge>, name: Option<string> :| FoundAt(old', new', od, nd, mode, path, i, trail, name);
      ShownIsReported(old', new', od, nd, mode, path, rank, k, i, trail, name);
    }
  }
}
