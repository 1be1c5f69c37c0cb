/**
 `compatibilityIssues`: the comparison of two whole API snapshots, operation by operation.
 */
module ApiCompatibility {
  import opened Options
  import opened OpenApiSchema
  import opened SchemaCompare
  import opened SchemaReport

  datatype Parameter = Parameter(name: string, location: string, required: bool, schema: Option<Schema>)

  datatype Body = Body(required: bool, schema: Option<Schema>)

  datatype Operation = Operation(
    httpMethod: string,
    path: string,
    parameters: seq<Parameter>,
    body: Option<Body>,
    responses: map<string, Option<Schema>>)

  datatype Snapshot = Snapshot(operations: map<string, Operation>, schemas: Document)

  /** Parameters by their place and name; of two with the same key the later one counts. */
  function ByKey(parameters: seq<Parameter>): map<string, Parameter> {
    if parameters == [] then map[]
    else
      var last := parameters[|parameters| - 1];
      ByKey(parameters[..|parameters| - 1])[last.location + ":" + last.name := last]
  }

  function Key(p: Parameter): string {
    p.location + ":" + p.name
  }

  /** Under each key stands the last parameter that has it, and nothing else is there. */
  lemma {:induction false} ByKeyIsLast(parameters: seq<Parameter>, key: string)
    ensures key in ByKey(parameters) <==> exists i :: 0 <= i < |parameters| && Key(parameters[i]) == key
    ensures key in ByKey(parameters) ==>
      exists i :: 0 <= i < |parameters| && Key(parameters[i]) == key && ByKey(parameters)[key] == parameters[i]
                  && forall j :: i < j < |parameters| ==> Key(parameters[j]) != key
  {
    if parameters != [] {
      var before, last := parameters[..|parameters| - 1], parameters[|parameters| - 1];
      ByKeyIsLast(before, key);
      if Key(last) == key {
        assert Key(parameters[|parameters| - 1]) == key;
      } else if key in ByKey(before) {
        var i :| 0 <= i < |before| && Key(before[i]) == key && ByKey(before)[key] == before[i]
          && forall j :: i < j < |before| ==> Key(before[j]) != key;
        assert Key(parameters[i]) == key;
      }
    }
  }

  /** The snapshot's reference graph has no cycle; `k` lies above every rank. */
  ghost predicate Acyclic(doc: Document, rank: map<string, nat>, k: nat) {
    Ranked(doc, rank) && forall name :: name in rank ==> rank[name] < k
  }

  lemma {:induction false} AnyNodeBelow(s: Schema, doc: Document, rank: map<string, nat>, k: nat)
    requires Acyclic(doc, rank, k)
    ensures RefsBelow(s, doc, rank, k)
    decreases s
  {
    if !HasRef(Some(s)) {
      if s.items.Some? {
        AnyNodeBelow(s.items.value, doc, rank, k);
      }
      if s.properties.Properties? {
        forall name | name in s.properties.fields
          ensures RefsBelow(s.properties.fields[name], doc, rank, k)
        {
          AnyNodeBelow(s.properties.fields[name], doc, rank, k);
        }
      }
    }
  }

  lemma AnyBelow(s: Option<Schema>, doc: Document, rank: map<string, nat>, k: nat)
    requires Acyclic(doc, rank, k)
    ensures NodeBelow(s, doc, rank, k)
  {
    if s.Some? {
      AnyNodeBelow(s.value, doc, rank, k);
    }
  }

  // ---------------------------------------------------------------- what is reported

  /** An acyclic baseline and the current snapshot, as every comparison below reads them. */
  datatype Comparison = Comparison(od: Document, nd: Document, rank: map<string, nat>, k: nat) {
    ghost predicate Ready() { Acyclic(od, rank, k) }
  }

  ghost function SchemaIssues(c: Comparison, o: Option<Schema>, n: Option<Schema>, mode: Mode, path: string): set<Issue>
    requires c.Ready()
  {
    AnyBelow(o, c.od, c.rank, c.k);
    Issues(o, n, c.od, c.nd, mode, path, c.rank, c.k)
  }

  ghost function ParameterIssues(c: Comparison, id: string, o: Operation, n: Operation, key: string): set<Issue>
    requires c.Ready() && key in ByKey(o.parameters)
  {
    if key !in ByKey(n.parameters) then {Issue(id, ParameterRemoved(key))}
    else SchemaIssues(c, ByKey(o.parameters)[key].schema, ByKey(n.parameters)[key].schema, Input, id + "." + key)
  }

  ghost function AllParameterIssues(c: Comparison, id: string, o: Operation, n: Operation,
                                    keys: set<string>): set<Issue>
    requires c.Ready() && keys <= ByKey(o.parameters).Keys
  {
    set key, i | key in keys && i in ParameterIssues(c, id, o, n, key) :: i
  }

  predicate BecameRequired(o: Operation, n: Operation, key: string) {
    && key in ByKey(n.parameters) && ByKey(n.parameters)[key].required
    && !(key in ByKey(o.parameters) && ByKey(o.parameters)[key].required)
  }

  function RequiredParameterIssues(id: string, o: Operation, n: Operation, keys: set<string>): set<Issue> {
    set key | key in keys && BecameRequired(o, n, key) :: Issue(id, ParameterBecameRequired(key))
  }

  predicate BodyRequired(op: Operation) {
    op.body.Some? && op.body.value.required
  }

  function BodySchema(op: Operation): Option<Schema> {
    if op.body.Some? then op.body.value.schema else None
  }

  ghost function BodyIssues(c: Comparison, id: string, o: Operation, n: Operation): set<Issue>
    requires c.Ready()
  {
    When(BodyRequired(n) && !BodyRequired(o), id, BodyBecameRequired)
    + if BodySchema(o).Some? then SchemaIssues(c, BodySchema(o), BodySchema(n), Input, id + ".body") else {}
  }

  ghost function ResponseIssues(c: Comparison, id: string, o: Operation, n: Operation, status: string): set<Issue>
    requires c.Ready() && status in o.responses
  {
    if status !in n.responses then {Issue(id, ResponseRemoved(status))}
    else SchemaIssues(c, o.responses[status], n.responses[status], Output, id + ".response." + status)
  }

  ghost function AllResponseIssues(c: Comparison, id: string, o: Operation, n: Operation, keys: set<string>): set<Issue>
    requires c.Ready() && keys <= o.responses.Keys
  {
    set status, i | status in keys && i in ResponseIssues(c, id, o, n, status) :: i
  }

  ghost function OperationIssues(c: Comparison, id: string, o: Operation, n: Operation): set<Issue>
    requires c.Ready()
  {
    When(n.httpMethod != o.httpMethod || n.path != o.path, id, OperationMoved)
    + AllParameterIssues(c, id, o, n, ByKey(o.parameters).Keys)
    + RequiredParameterIssues(id, o, n, ByKey(n.parameters).Keys)
    + BodyIssues(c, id, o, n)
    + AllResponseIssues(c, id, o, n, o.responses.Keys)
  }

  ghost function EntryIssues(c: Comparison, a: Snapshot, b: Snapshot, id: string): set<Issue>
    requires c.Ready() && id in a.operations
  {
    if id !in b.operations then {Issue(id, OperationRemoved)}
    else OperationIssues(c, id, a.operations[id], b.operations[id])
  }

  ghost function AllEntryIssues(c: Comparison, a: Snapshot, b: Snapshot, ids: set<string>): set<Issue>
    requires c.Ready() && ids <= a.operations.Keys
  {
    set id, i | id in ids && i in EntryIssues(c, a, b, id) :: i
  }

  /** Everything `compatibilityIssues(baseline, current)` reports. */
  ghost function CompatibilityIssues(a: Snapshot, b: Snapshot, rank: map<string, nat>, k: nat): set<Issue>
    requires Acyclic(a.schemas, rank, k)
  {
    AllEntryIssues(Comparison(a.schemas, b.schemas, rank, k), a, b, a.operations.Keys)
  }

  // ---------------------------------------------------------------- the report, issue by issue

  /** A break in the parameters of an operation: one is gone, or its schema narrows, or one is now required. */
  ghost predicate ParameterBreak(a: Snapshot, b: Snapshot, id: string, o: Operation, n: Operation, key: string,
                                 i: Issue) {
    var p, q := ByKey(o.parameters), ByKey(n.parameters);
    || (key in p && key !in q && i == Issue(id, ParameterRemoved(key)))
    || (key in p && key in q && Shown(p[key].schema, q[key].schema, a.schemas, b.schemas, Input, id + "." + key, i))
    || (key in q && q[key].required && (key !in p || !p[key].required) && i == Issue(id, ParameterBecameRequired(key)))
  }

  ghost predicate BodyBreak(a: Snapshot, b: Snapshot, id: string, o: Operation, n: Operation, i: Issue) {
    || (n.body.Some? && n.body.value.required && (o.body.None? || !o.body.value.required)
        && i == Issue(id, BodyBecameRequired))
    || (o.body.Some? && o.body.value.schema.Some?
        && Shown(o.body.value.schema, if n.body.Some? then n.body.value.schema else None,
                 a.schemas, b.schemas, Input, id + ".body", i))
  }

  ghost predicate ResponseBreak(a: Snapshot, b: Snapshot, id: string, o: Operation, n: Operation, status: string,
                                i: Issue) {
    status in o.responses &&
    if status !in n.responses then i == Issue(id, ResponseRemoved(status))
    else Shown(o.responses[status], n.responses[status], a.schemas, b.schemas, Output, id + ".response." + status, i)
  }

  ghost predicate OperationBreak(a: Snapshot, b: Snapshot, id: string, o: Operation, n: Operation, i: Issue) {
    || ((n.httpMethod != o.httpMethod || n.path != o.path) && i == Issue(id, OperationMoved))
    || (exists key :: ParameterBreak(a, b, id, o, n, key, i))
    || BodyBreak(a, b, id, o, n, i)
    || (exists status :: ResponseBreak(a, b, id, o, n, status, i))
  }

  /** The break `i` is one between the old and the new operation `id`. */
  ghost predicate EntryBreak(a: Snapshot, b: Snapshot, id: string, i: Issue) {
    id in a.operations &&
    if id !in b.operations then i == Issue(id, OperationRemoved)
    else OperationBreak(a, b, id, a.operations[id], b.operations[id], i)
  }

  ghost predicate Reported(a: Snapshot, b: Snapshot, i: Issue) {
    exists id :: EntryBreak(a, b, id, i)
  }

  lemma SchemaReported(c: Comparison, o: Option<Schema>, n: Option<Schema>, mode: Mode, path: string, i: Issue)
    requires c.Ready()
    ensures i in SchemaIssues(c, o, n, mode, path) <==> Shown(o, n, c.od, c.nd, mode, path, i)
  {
    hide Issues, Shown;
    AnyBelow(o, c.od, c.rank, c.k);
    ReportIsWhatIsShown(o, n, c.od, c.nd, mode, path, c.rank, c.k, i);
  }

  lemma ParametersReported(c: Comparison, a: Snapshot, b: Snapshot, id: string, o: Operation, n: Operation, i: Issue)
    requires c.Ready() && c.od == a.schemas && c.nd == b.schemas
    ensures i in AllParameterIssues(c, id, o, n, ByKey(o.parameters).Keys)
              + RequiredParameterIssues(id, o, n, ByKey(n.parameters).Keys) <==>
      exists key :: ParameterBreak(a, b, id, o, n, key, i)
  {
    hide SchemaIssues, Shown;
    var p, q := ByKey(o.parameters), ByKey(n.parameters);
    forall key | key in p && key in q
      ensures i in SchemaIssues(c, p[key].schema, q[key].schema, Input, id + "." + key) <==>
        Shown(p[key].schema, q[key].schema, a.schemas, b.schemas, Input, id + "." + key, i)
    {
      SchemaReported(c, p[key].schema, q[key].schema, Input, id + "." + key, i);
    }
    if i in AllParameterIssues(c, id, o, n, p.Keys) {
      var key :| key in p && i in ParameterIssues(c, id, o, n, key);
      assert ParameterBreak(a, b, id, o, n, key, i);
    }
    if i in RequiredParameterIssues(id, o, n, q.Keys) {
      var key :| key in q && BecameRequired(o, n, key) && i == Issue(id, ParameterBecameRequired(key));
      assert ParameterBreak(a, b, id, o, n, key, i);
    }
    forall key | ParameterBreak(a, b, id, o, n, key, i)
      ensures i in AllParameterIssues(c, id, o, n, p.Keys) + RequiredParameterIssues(id, o, n, q.Keys)
    {
      if key in p && i in ParameterIssues(c, id, o, n, key) {
      } else {
        assert BecameRequired(o, n, key);
      }
    }
  }

  lemma ResponsesReported(c: Comparison, a: Snapshot, b: Snapshot, id: string, o: Operation, n: Operation, i: Issue)
    requires c.Ready() && c.od == a.schemas && c.nd == b.schemas
    ensures i in AllResponseIssues(c, id, o, n, o.responses.Keys) <==>
      exists status :: ResponseBreak(a, b, id, o, n, status, i)
  {
    hide SchemaIssues, Shown;
    forall status | status in o.responses
      ensures i in ResponseIssues(c, id, o, n, status) <==> ResponseBreak(a, b, id, o, n, status, i)
    {
      if status in n.responses {
        SchemaReported(c, o.responses[status], n.responses[status], Output, id + ".response." + status, i);
      }
    }
    if i in AllResponseIssues(c, id, o, n, o.responses.Keys) {
      var status :| status in o.responses && i in ResponseIssues(c, id, o, n, status);
      assert ResponseBreak(a, b, id, o, n, status, i);
    }
  }

  lemma OperationReported(c: Comparison, a: Snapshot, b: Snapshot, id: string, o: Operation, n: Operation, i: Issue)
    requires c.Ready() && c.od == a.schemas && c.nd == b.schemas
    ensures i in OperationIssues(c, id, o, n) <==> OperationBreak(a, b, id, o, n, i)
  {
    hide SchemaIssues, Shown, AllParameterIssues, RequiredParameterIssues, AllResponseIssues;
    hide ParameterBreak, ResponseBreak;
    ParametersReported(c, a, b, id, o, n, i);
    ResponsesReported(c, a, b, id, o, n, i);
    SchemaReported(c, BodySchema(o), BodySchema(n), Input, id + ".body", i);
  }

  /** The report of two snapshots holds exactly the breaks between them. */
  lemma ReportIsTheBreaks(a: Snapshot, b: Snapshot, rank: map<string, nat>, k: nat, i: Issue)
    requires Acyclic(a.schemas, rank, k)
    ensures i in CompatibilityIssues(a, b, rank, k) <==> Reported(a, b, i)
  {
    hide OperationIssues, OperationBreak;
    var c := Comparison(a.schemas, b.schemas, rank, k);
    forall id | id in a.operations
      ensures i in EntryIssues(c, a, b, id) <==> EntryBreak(a, b, id, i)
    {
      if id in b.operations {
        OperationReported(c, a, b, id, a.operations[id], b.operations[id], i);
      }
    }
    if i in CompatibilityIssues(a, b, rank, k) {
      var id :| id in a.operations && i in EntryIssues(c, a, b, id);
      assert EntryBreak(a, b, id, i);
    }
  }

  // ---------------------------------------------------------------- the checker's own steps

  method CompareAt(log: IssueLog, o: Option<Schema>, n: Option<Schema>, od: Document, nd: Document, mode: Mode,
                   path: string, ghost c: Comparison)
    requires c.Ready() && c.od == od && c.nd == nd
    modifies log
    ensures log.Gained(SchemaIssues(c, o, n, mode, path))
  {
    AnyBelow(o, od, c.rank, c.k);
    CompareSchema(log, o, n, od, nd, mode, path, c.rank, c.k);
  }

  method CompareParameter(log: IssueLog, id: string, o: Operation, n: Operation, key: string,
                          od: Document, nd: Document, ghost c: Comparison)
    requires c.Ready() && c.od == od && c.nd == nd && key in ByKey(o.parameters)
    modifies log
    ensures log.Gained(ParameterIssues(c, id, o, n, key))
  {
    var nextParameters := ByKey(n.parameters);
    if key !in nextParameters {
      log.Push(Issue(id, ParameterRemoved(key)));
    } else {
      CompareAt(log, ByKey(o.parameters)[key].schema, nextParameters[key].schema, od, nd, Input, id + "." + key, c);
    }
  }

  method CompareParameters(log: IssueLog, id: string, o: Operation, n: Operation,
                           od: Document, nd: Document, ghost c: Comparison)
    requires c.Ready() && c.od == od && c.nd == nd
    modifies log
    ensures log.Gained(AllParameterIssues(c, id, o, n, ByKey(o.parameters).Keys))
  {
    var keys := ByKey(o.parameters).Keys;
    var rest := keys;
    while rest != {}
      invariant rest <= keys
      invariant log.Gained(AllParameterIssues(c, id, o, n, keys - rest))
    {
      var key :| key in rest;
      CompareParameter(log, id, o, n, key, od, nd, c);
      assert keys - (rest - {key}) == keys - rest + {key};
      assert AllParameterIssues(c, id, o, n, keys - rest + {key}) ==
             AllParameterIssues(c, id, o, n, keys - rest) + ParameterIssues(c, id, o, n, key);
      rest := rest - {key};
    }
    assert keys - rest == keys;
  }

  method CheckRequiredParameters(log: IssueLog, id: string, o: Operation, n: Operation)
    modifies log
    ensures log.Gained(RequiredParameterIssues(id, o, n, ByKey(n.parameters).Keys))
  {
    var keys := ByKey(n.parameters).Keys;
    var rest := keys;
    while rest != {}
      invariant rest <= keys
      invariant log.Gained(RequiredParameterIssues(id, o, n, keys - rest))
    {
      var key :| key in rest;
      PushWhen(log, BecameRequired(o, n, key), id, ParameterBecameRequired(key));
      assert keys - (rest - {key}) == keys - rest + {key};
      rest := rest - {key};
    }
    assert keys - rest == keys;
  }

  method CompareBodies(log: IssueLog, id: string, o: Operation, n: Operation,
                       od: Document, nd: Document, ghost c: Comparison)
    requires c.Ready() && c.od == od && c.nd == nd
    modifies log
    ensures log.Gained(BodyIssues(c, id, o, n))
  {
    PushWhen(log, BodyRequired(n) && !BodyRequired(o), id, BodyBecameRequired);
    if BodySchema(o).Some? {
      CompareAt(log, BodySchema(o), BodySchema(n), od, nd, Input, id + ".body", c);
    }
  }

  method CompareResponse(log: IssueLog, id: string, o: Operation, n: Operation, status: string,
                         od: Document, nd: Document, ghost c: Comparison)
    requires c.Ready() && c.od == od && c.nd == nd && status in o.responses
    modifies log
    ensures log.Gained(ResponseIssues(c, id, o, n, status))
  {
    if status !in n.responses {
      log.Push(Issue(id, ResponseRemoved(status)));
    } else {
      CompareAt(log, o.responses[status], n.responses[status], od, nd, Output, id + ".response." + status, c);
    }
  }

  method CompareResponses(log: IssueLog, id: string, o: Operation, n: Operation,
                          od: Document, nd: Document, ghost c: Comparison)
    requires c.Ready() && c.od == od && c.nd == nd
    modifies log
    ensures log.Gained(AllResponseIssues(c, id, o, n, o.responses.Keys))
  {
    var keys := o.responses.Keys;
    var rest := keys;
    while rest != {}
      invariant rest <= keys
      invariant log.Gained(AllResponseIssues(c, id, o, n, keys - rest))
    {
      var status :| status in rest;
      CompareResponse(log, id, o, n, status, od, nd, c);
      assert keys - (rest - {status}) == keys - rest + {status};
      assert AllResponseIssues(c, id, o, n, keys - rest + {status}) ==
             AllResponseIssues(c, id, o, n, keys - rest) + ResponseIssues(c, id, o, n, status);
      rest := rest - {status};
    }
    assert keys - rest == keys;
  }

  method CompareOperation(log: IssueLog, id: string, o: Operation, n: Operation,
                          od: Document, nd: Document, ghost c: Comparison)
    requires c.Ready() && c.od == od && c.nd == nd
    modifies log
    ensures log.Gained(OperationIssues(c, id, o, n))
  {
    PushWhen(log, n.httpMethod != o.httpMethod || n.path != o.path, id, OperationMoved);
    CompareParameters(log, id, o, n, od, nd, c);
    CheckRequiredParameters(log, id, o, n);
    CompareBodies(log, id, o, n, od, nd, c);
    CompareResponses(log, id, o, n, od, nd, c);
  }

  method CompareEntry(log: IssueLog, a: Snapshot, b: Snapshot, id: string, ghost c: Comparison)
    requires c.Ready() && c.od == a.schemas && c.nd == b.schemas && id in a.operations
    modifies log
    ensures log.Gained(EntryIssues(c, a, b, id))
  {
    if id !in b.operations {
      log.Push(Issue(id, OperationRemoved));
    } else {
      CompareOperation(log, id, a.operations[id], b.operations[id], a.schemas, b.schemas, c);
    }
  }

  /** `compatibilityIssues`, on a baseline whose schemas are not recursive. */
  method FindIssues(baseline: Snapshot, current: Snapshot, ghost rank: map<string, nat>, ghost k: nat)
    returns (issues: seq<Issue>)
    requires Acyclic(baseline.schemas, rank, k)
    ensures forall i :: i in issues <==> i in CompatibilityIssues(baseline, current, rank, k)
    ensures forall i :: i in issues <==> Reported(baseline, current, i)
  {
    ghost var c := Comparison(baseline.schemas, current.schemas, rank, k);
    var log := new IssueLog();
    var ids := baseline.operations.Keys;
    var rest := ids;
    while rest != {}
      invariant rest <= ids
      invariant log.Found() == AllEntryIssues(c, baseline, current, ids - rest)
    {
      var id :| id in rest;
      CompareEntry(log, baseline, current, id, c);
      assert ids - (rest - {id}) == ids - rest + {id};
      assert AllEntryIssues(c, baseline, current, ids - rest + {id}) ==
             AllEntryIssues(c, baseline, current, ids - rest) + EntryIssues(c, baseline, current, id);
      rest := rest - {id};
    }
    assert ids - rest == ids;
    issues := log.issues;
    assert forall i :: i in log.Found() <==> i in issues;
    forall i ensures i in issues <==> Reported(baseline, current, i) {
      ReportIsTheBreaks(baseline, current, rank, k, i);
    }
  }
}
