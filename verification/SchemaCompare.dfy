/**
 `compareSchema`: the recursive comparison of an old and a new schema, and what a report contains.
 Issues are compared as sets, because the order of a JavaScript object's entries carries no meaning.
 */
module SchemaCompare {
  import opened Options
  import opened OpenApiSchema

  /** Input schemas must not narrow, output schemas must not widen. */
  datatype Mode = Input | Output

  datatype Kind =
    | SchemaRemoved
    | TypeChanged(oldType: Option<string>, newType: Option<string>)
    | InputEnumAdded
    | InputEnumRemoved(value: Json)
    | ResponseEnumDropped
    | ResponseEnumAdded(value: Json)
    | NullableNarrowed
    | BecameNullable
    | MinLengthIncreased
    | MaxLengthDecreased
    | MinimumIncreased
    | MaximumDecreased
    | PatternChanged
    | PropertyRemoved
    | RequiredIncompatible
    | AdditionalPropertiesRejected
    | OperationRemoved
    | OperationMoved
    | ParameterRemoved(key: string)
    | ParameterBecameRequired(key: string)
    | BodyBecameRequired
    | ResponseRemoved(status: string)

  datatype Issue = Issue(path: string, kind: Kind)

  class IssueLog {
    var issues: seq<Issue>

    constructor ()
      ensures issues == []
    {
      issues := [];
    }

    ghost function Found(): set<Issue>
      reads this
    {
      set i | i in issues
    }

    /** The log has kept what it held and gained exactly the issues in `added`. */
    twostate predicate Gained(added: set<Issue>)
      reads this
    {
      Found() == old(Found()) + added
    }

    method Push(issue: Issue)
      modifies this
      ensures issues == old(issues) + [issue]
      ensures Found() == old(Found()) + {issue}
    {
      issues := issues + [issue];
    }
  }

  /** `schema.type ?? (schema.properties ? 'object' : undefined)` */
  function EffectiveType(s: Schema): Option<string> {
    if s.typ.Some? then s.typ
    else if s.properties.Properties? then Some("object")
    else None
  }

  predicate RaisedInt(was: Option<int>, now: Option<int>) {
    now.Some? && (was.None? || now.value > was.value)
  }

  predicate LoweredInt(was: Option<int>, now: Option<int>) {
    now.Some? && (was.None? || now.value < was.value)
  }

  predicate RaisedReal(was: Option<real>, now: Option<real>) {
    now.Some? && (was.None? || now.value > was.value)
  }

  predicate LoweredReal(was: Option<real>, now: Option<real>) {
    now.Some? && (was.None? || now.value < was.value)
  }

  function When(condition: bool, path: string, kind: Kind): set<Issue> {
    if condition then {Issue(path, kind)} else {}
  }

  /** Enum values: a new input must keep all of the old ones, a new output may use only old ones. */
  function EnumIssues(o: Schema, n: Schema, mode: Mode, path: string): set<Issue> {
    match mode
    case Input =>
      if n.enum.None? then {}
      else if o.enum.None? then {Issue(path, InputEnumAdded)}
      else set v | v in o.enum.value && v !in n.enum.value :: Issue(path, InputEnumRemoved(v))
    case Output =>
      if o.enum.None? then {}
      else if n.enum.None? then {Issue(path, ResponseEnumDropped)}
      else set v | v in n.enum.value && v !in o.enum.value :: Issue(path, ResponseEnumAdded(v))
  }

  function BoundIssues(o: Schema, n: Schema, path: string): set<Issue> {
    When(RaisedInt(o.minLength, n.minLength), path, MinLengthIncreased)
    + When(LoweredInt(o.maxLength, n.maxLength), path, MaxLengthDecreased)
    + When(RaisedReal(o.minimum, n.minimum), path, MinimumIncreased)
    + When(LoweredReal(o.maximum, n.maximum), path, MaximumDecreased)
  }

  function KeywordIssues(o: Schema, n: Schema, mode: Mode, path: string): set<Issue> {
    EnumIssues(o, n, mode, path)
    + match mode
      case Input =>
        When(o.nullable && !n.nullable, path, NullableNarrowed)
        + BoundIssues(o, n, path)
        + When(n.pattern.Some? && n.pattern.value != "" && n.pattern != o.pattern, path, PatternChanged)
      case Output =>
        When(!o.nullable && n.nullable, path, BecameNullable)
  }

  /** Property names that the mode obliges the other side to require as well. */
  function Unmatched(o: Schema, n: Schema, mode: Mode): set<string> {
    if mode.Input? then n.required - o.required else o.required - n.required
  }

  function ObjectIssues(o: Schema, n: Schema, mode: Mode, path: string): set<Issue> {
    (set name | name in Unmatched(o, n, mode) :: Issue(path + "." + name, RequiredIncompatible))
    + When(mode.Input? && !o.closed && n.closed, path, AdditionalPropertiesRejected)
  }

  /** Everything `compareSchema` reports, for an acyclic old document. */
  ghost function Issues(old': Option<Schema>, new': Option<Schema>, od: Document, nd: Document,
                        mode: Mode, path: string, rank: map<string, nat>, k: nat): set<Issue>
    requires NodeBelow(old', od, rank, k)
    decreases k, old'.Some?, old'.GetOr(Any), 2
  {
    var o, n := Resolve(old', od), Resolve(new', nd);
    if o.None? then {}
    else if n.None? then {Issue(path, SchemaRemoved)}
    else
      ResolveEnds(old', od, rank, k, {});
      NodeIssues(o.value, n.value, od, nd, mode, path, rank, ChildRank(old', od, rank, k))
  }

  /** What two resolved nodes, and everything below them, are reported for. */
  ghost function NodeIssues(o: Schema, n: Schema, od: Document, nd: Document, mode: Mode, path: string,
                            rank: map<string, nat>, k: nat): set<Issue>
    requires NodeBelow(Some(o), od, rank, k) && !HasRef(Some(o))
    decreases k, true, o, 1
  {
    if EffectiveType(o) != EffectiveType(n) then {Issue(path, TypeChanged(EffectiveType(o), EffectiveType(n)))}
    else
      KeywordIssues(o, n, mode, path) + ChildIssues(o, n, od, nd, mode, path, rank, k)
  }

  ghost function ChildIssues(o: Schema, n: Schema, od: Document, nd: Document, mode: Mode, path: string,
                             rank: map<string, nat>, k: nat): set<Issue>
    requires NodeBelow(Some(o), od, rank, k) && !HasRef(Some(o))
    decreases k, true, o, 1, 0
  {
    if EffectiveType(o) == Some("array") then
      Issues(o.items, n.items, od, nd, mode, path + "[]", rank, k)
    else if EffectiveType(o) == Some("object") then
      PropertyIssues(o, n, od, nd, mode, path, rank, k, o.properties.Fields().Keys)
      + ObjectIssues(o, n, mode, path)
    else {}
  }

  ghost function PropertyIssues(o: Schema, n: Schema, od: Document, nd: Document, mode: Mode, path: string,
                                rank: map<string, nat>, k: nat, names: set<string>): set<Issue>
    requires NodeBelow(Some(o), od, rank, k) && !HasRef(Some(o))
    requires names <= o.properties.Fields().Keys
    decreases k, true, o, 0, 1
  {
    set name, i | name in names && i in OneProperty(o, n, od, nd, mode, path, rank, k, name) :: i
  }

  ghost function OneProperty(o: Schema, n: Schema, od: Document, nd: Document, mode: Mode, path: string,
                             rank: map<string, nat>, k: nat, name: string): set<Issue>
    requires NodeBelow(Some(o), od, rank, k) && !HasRef(Some(o))
    requires name in o.properties.Fields()
    decreases k, true, o, 0, 0
  {
    if name !in n.properties.Fields() then {Issue(path + "." + name, PropertyRemoved)}
    else
      Issues(Some(o.properties.Fields()[name]), Some(n.properties.Fields()[name]),
             od, nd, mode, path + "." + name, rank, k)
  }

  // ---------------------------------------------------------------- the checker's own steps

  method PushWhen(log: IssueLog, condition: bool, path: string, kind: Kind)
    modifies log
    ensures log.Gained(When(condition, path, kind))
  {
    if condition {
      log.Push(Issue(path, kind));
    }
  }

  method PushEnumIssues(log: IssueLog, o: Schema, n: Schema, mode: Mode, path: string)
    modifies log
    ensures log.Gained(EnumIssues(o, n, mode, path))
  {
    if mode.Input? && n.enum.Some? {
      if o.enum.None? {
        log.Push(Issue(path, InputEnumAdded));
      } else {
        PushMissing(log, o.enum.value, n.enum.value, path, v => InputEnumRemoved(v));
      }
    }
    if mode.Output? && o.enum.Some? {
      if n.enum.None? {
        log.Push(Issue(path, ResponseEnumDropped));
      } else {
        PushMissing(log, n.enum.value, o.enum.value, path, v => ResponseEnumAdded(v));
      }
    }
  }

  /** One issue for every value in `from` that is not allowed. */
  method PushMissing(log: IssueLog, from: set<Json>, allowed: set<Json>, path: string, kind: Json -> Kind)
    modifies log
    ensures log.Gained(set v | v in from && v !in allowed :: Issue(path, kind(v)))
  {
    var rest := from;
    while rest != {}
      invariant rest <= from
      invariant log.Gained(set v | v in from - rest && v !in allowed :: Issue(path, kind(v)))
    {
      var value :| value in rest;
      if value !in allowed {
        log.Push(Issue(path, kind(value)));
      }
      rest := rest - {value};
    }
  }

  method PushKeywordIssues(log: IssueLog, o: Schema, n: Schema, mode: Mode, path: string)
    modifies log
    ensures log.Gained(KeywordIssues(o, n, mode, path))
  {
    PushEnumIssues(log, o, n, mode, path);
    if mode.Input? {
      PushWhen(log, o.nullable && !n.nullable, path, NullableNarrowed);
      PushBoundIssues(log, o, n, path);
      PushWhen(log, n.pattern.Some? && n.pattern.value != "" && n.pattern != o.pattern, path, PatternChanged);
    } else {
      PushWhen(log, !o.nullable && n.nullable, path, BecameNullable);
    }
  }

  method PushBoundIssues(log: IssueLog, o: Schema, n: Schema, path: string)
    modifies log
    ensures log.Gained(BoundIssues(o, n, path))
  {
    PushWhen(log, RaisedInt(o.minLength, n.minLength), path, MinLengthIncreased);
    PushWhen(log, LoweredInt(o.maxLength, n.maxLength), path, MaxLengthDecreased);
    PushWhen(log, RaisedReal(o.minimum, n.minimum), path, MinimumIncreased);
    PushWhen(log, LoweredReal(o.maximum, n.maximum), path, MaximumDecreased);
  }

  method PushRequiredIssues(log: IssueLog, o: Schema, n: Schema, mode: Mode, path: string)
    modifies log
    ensures log.Gained(ObjectIssues(o, n, mode, path))
  {
    var requiredToKeep := if mode.Input? then n.required else o.required;
    var requiredBefore := if mode.Input? then o.required else n.required;
    var rest := requiredToKeep;
    while rest != {}
      invariant rest <= requiredToKeep
      invariant log.Gained(
        set name | name in requiredToKeep - rest - requiredBefore :: Issue(path + "." + name, RequiredIncompatible))
    {
      var name :| name in rest;
      if name !in requiredBefore {
        log.Push(Issue(path + "." + name, RequiredIncompatible));
      }
      rest := rest - {name};
    }
    PushWhen(log, mode.Input? && !o.closed && n.closed, path, AdditionalPropertiesRejected);
  }

  /** The loop over the old node's properties. */
  method CompareProperties(log: IssueLog, o: Schema, n: Schema, od: Document, nd: Document, mode: Mode,
                           path: string, ghost rank: map<string, nat>, ghost k: nat)
    requires NodeBelow(Some(o), od, rank, k) && !HasRef(Some(o))
    modifies log
    ensures log.Gained(PropertyIssues(o, n, od, nd, mode, path, rank, k, o.properties.Fields().Keys))
    decreases k, true, o, 0, 1
  {
    var names := o.properties.Fields().Keys;
    var rest := names;
    while rest != {}
      invariant rest <= names
      invariant log.Gained(PropertyIssues(o, n, od, nd, mode, path, rank, k, names - rest))
    {
      var name :| name in rest;
      CompareProperty(log, o, n, od, nd, mode, path, rank, k, name);
      OneMoreProperty(o, n, od, nd, mode, path, rank, k, names - rest, name);
      assert names - (rest - {name}) == names - rest + {name};
      rest := rest - {name};
    }
    assert names - rest == names;
  }

  method CompareProperty(log: IssueLog, o: Schema, n: Schema, od: Document, nd: Document, mode: Mode,
                         path: string, ghost rank: map<string, nat>, ghost k: nat, name: string)
    requires NodeBelow(Some(o), od, rank, k) && !HasRef(Some(o))
    requires name in o.properties.Fields()
    modifies log
    ensures log.Gained(OneProperty(o, n, od, nd, mode, path, rank, k, name))
    decreases k, true, o, 0, 0
  {
    var newProperties := n.properties.Fields();
    if name !in newProperties {
      log.Push(Issue(path + "." + name, PropertyRemoved));
    } else {
      CompareSchema(log, Some(o.properties.Fields()[name]), Some(newProperties[name]), od, nd, mode,
                    path + "." + name, rank, k);
    }
  }

  lemma OneMoreProperty(o: Schema, n: Schema, od: Document, nd: Document, mode: Mode, path: string,
                        rank: map<string, nat>, k: nat, done: set<string>, name: string)
    requires NodeBelow(Some(o), od, rank, k) && !HasRef(Some(o))
    requires done <= o.properties.Fields().Keys && name in o.properties.Fields()
    ensures PropertyIssues(o, n, od, nd, mode, path, rank, k, done + {name}) ==
            PropertyIssues(o, n, od, nd, mode, path, rank, k, done)
            + OneProperty(o, n, od, nd, mode, path, rank, k, name)
  {
  }

  method CompareSchema(log: IssueLog, oldValue: Option<Schema>, newValue: Option<Schema>, od: Document,
                       nd: Document, mode: Mode, path: string, ghost rank: map<string, nat>, ghost k: nat)
    requires NodeBelow(oldValue, od, rank, k)
    modifies log
    ensures log.Gained(Issues(oldValue, newValue, od, nd, mode, path, rank, k))
    decreases k, oldValue.Some?, oldValue.GetOr(Any), 2
  {
    var oldSchema := ResolvedSchema(oldValue, od);
    var newSchema := ResolvedSchema(newValue, nd);
    if oldSchema.None? && newSchema.None? {
      return;
    }
    if newSchema.None? {
      log.Push(Issue(path, SchemaRemoved));
      return;
    }
    if oldSchema.None? {
      return;
    }
    ResolveEnds(oldValue, od, rank, k, {});
    CompareNodes(log, oldSchema.value, newSchema.value, od, nd, mode, path, rank, ChildRank(oldValue, od, rank, k));
  }

  /** The rest of `compareSchema`, on two resolved nodes. */
  method CompareNodes(log: IssueLog, o: Schema, n: Schema, od: Document, nd: Document, mode: Mode,
                      path: string, ghost rank: map<string, nat>, ghost k: nat)
    requires NodeBelow(Some(o), od, rank, k) && !HasRef(Some(o))
    modifies log
    ensures log.Gained(NodeIssues(o, n, od, nd, mode, path, rank, k))
    decreases k, true, o, 1
  {
    if EffectiveType(o) != EffectiveType(n) {
      log.Push(Issue(path, TypeChanged(EffectiveType(o), EffectiveType(n))));
      return;
    }
    PushKeywordIssues(log, o, n, mode, path);
    CompareChildren(log, o, n, od, nd, mode, path, rank, k);
  }

  method CompareChildren(log: IssueLog, o: Schema, n: Schema, od: Document, nd: Document, mode: Mode,
                         path: string, ghost rank: map<string, nat>, ghost k: nat)
    requires NodeBelow(Some(o), od, rank, k) && !HasRef(Some(o))
    modifies log
    ensures log.Gained(ChildIssues(o, n, od, nd, mode, path, rank, k))
    decreases k, true, o, 1, 0
  {
    if EffectiveType(o) == Some("array") {
      CompareSchema(log, o.items, n.items, od, nd, mode, path + "[]", rank, k);
    } else if EffectiveType(o) == Some("object") {
      CompareProperties(log, o, n, od, nd, mode, path, rank, k);
      PushRequiredIssues(log, o, n, mode, path);
    }
  }
}
