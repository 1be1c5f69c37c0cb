/**
 The compatibility policy: an empty report is a preorder on snapshots, and it means that old requests
 are still accepted and new responses still understood.
 */
module ApiPolicy {
  import opened Options
  import opened OpenApiSchema
  import opened SchemaCompare
  import opened SchemaPreorder
  import opened SchemaSoundness
  import opened ApiCompatibility

  ghost predicate SchemaClean(c: Comparison, o: Option<Schema>, n: Option<Schema>, mode: Mode)
    requires c.Ready()
  {
    AnyBelow(o, c.od, c.rank, c.k);
    Clean(o, n, c.od, c.nd, mode, c.rank, c.k)
  }

  ghost predicate ParametersClean(c: Comparison, o: Operation, n: Operation)
    requires c.Ready()
  {
    forall key :: key in ByKey(o.parameters) ==>
      && key in ByKey(n.parameters)
      && SchemaClean(c, ByKey(o.parameters)[key].schema, ByKey(n.parameters)[key].schema, Input)
  }

  ghost predicate ResponsesClean(c: Comparison, o: Operation, n: Operation)
    requires c.Ready()
  {
    forall status :: status in o.responses ==>
      status in n.responses && SchemaClean(c, o.responses[status], n.responses[status], Output)
  }

  ghost predicate OperationClean(c: Comparison, o: Operation, n: Operation)
    requires c.Ready()
  {
    && n.httpMethod == o.httpMethod && n.path == o.path
    && ParametersClean(c, o, n)
    && (forall key :: key in ByKey(n.parameters) ==> !BecameRequired(o, n, key))
    && (BodyRequired(n) ==> BodyRequired(o))
    && (BodySchema(o).Some? ==> SchemaClean(c, BodySchema(o), BodySchema(n), Input))
    && ResponsesClean(c, o, n)
  }

  ghost predicate ApiClean(c: Comparison, a: Snapshot, b: Snapshot)
    requires c.Ready()
  {
    forall id :: id in a.operations ==>
      id in b.operations && OperationClean(c, a.operations[id], b.operations[id])
  }

  // ---------------------------------------------------------------- an empty report

  lemma SchemaReport(c: Comparison, o: Option<Schema>, n: Option<Schema>, mode: Mode, path: string)
    requires c.Ready()
    ensures SchemaIssues(c, o, n, mode, path) == {} <==> SchemaClean(c, o, n, mode)
  {
    AnyBelow(o, c.od, c.rank, c.k);
    EmptyReportIffClean(o, n, c.od, c.nd, mode, path, c.rank, c.k);
  }

  lemma ParametersReport(c: Comparison, id: string, o: Operation, n: Operation)
    requires c.Ready()
    ensures AllParameterIssues(c, id, o, n, ByKey(o.parameters).Keys) == {} <==> ParametersClean(c, o, n)
  {
    var all := AllParameterIssues(c, id, o, n, ByKey(o.parameters).Keys);
    forall key | key in ByKey(o.parameters)
      ensures ParameterIssues(c, id, o, n, key) <= all
      ensures ParameterIssues(c, id, o, n, key) == {} <==>
        key in ByKey(n.parameters) &&
        SchemaClean(c, ByKey(o.parameters)[key].schema, ByKey(n.parameters)[key].schema, Input)
    {
      if key in ByKey(n.parameters) {
        SchemaReport(c, ByKey(o.parameters)[key].schema, ByKey(n.parameters)[key].schema, Input, id + "." + key);
      }
    }
    if all != {} {
      var i :| i in all;
      var key :| key in ByKey(o.parameters) && i in ParameterIssues(c, id, o, n, key);
    }
  }

  lemma RequiredReport(id: string, o: Operation, n: Operation)
    ensures RequiredParameterIssues(id, o, n, ByKey(n.parameters).Keys) == {} <==>
      forall key :: key in ByKey(n.parameters) ==> !BecameRequired(o, n, key)
  {
    forall key | key in ByKey(n.parameters) && BecameRequired(o, n, key)
      ensures Issue(id, ParameterBecameRequired(key)) in
        RequiredParameterIssues(id, o, n, ByKey(n.parameters).Keys) {}
  }

  lemma ResponsesReport(c: Comparison, id: string, o: Operation, n: Operation)
    requires c.Ready()
    ensures AllResponseIssues(c, id, o, n, o.responses.Keys) == {} <==> ResponsesClean(c, o, n)
  {
    var all := AllResponseIssues(c, id, o, n, o.responses.Keys);
    forall status | status in o.responses
      ensures ResponseIssues(c, id, o, n, status) <= all
      ensures ResponseIssues(c, id, o, n, status) == {} <==>
        status in n.responses && SchemaClean(c, o.responses[status], n.responses[status], Output)
    {
      if status in n.responses {
        SchemaReport(c, o.responses[status], n.responses[status], Output, id + ".response." + status);
      }
    }
    if all != {} {
      var i :| i in all;
      var status :| status in o.responses && i in ResponseIssues(c, id, o, n, status);
    }
  }

  lemma OperationReport(c: Comparison, id: string, o: Operation, n: Operation)
    requires c.Ready()
    ensures OperationIssues(c, id, o, n) == {} <==> OperationClean(c, o, n)
  {
    ParametersReport(c, id, o, n);
    RequiredReport(id, o, n);
    SchemaReport(c, BodySchema(o), BodySchema(n), Input, id + ".body");
    ResponsesReport(c, id, o, n);
  }

  /** The report on two snapshots is empty exactly when every old operation is kept clean. */
  lemma EmptyApiReport(a: Snapshot, b: Snapshot, rank: map<string, nat>, k: nat)
    requires Acyclic(a.schemas, rank, k)
    ensures CompatibilityIssues(a, b, rank, k) == {} <==>
      ApiClean(Comparison(a.schemas, b.schemas, rank, k), a, b)
  {
    var c := Comparison(a.schemas, b.schemas, rank, k);
    var all := CompatibilityIssues(a, b, rank, k);
    forall id | id in a.operations
      ensures EntryIssues(c, a, b, id) <= all
      ensures EntryIssues(c, a, b, id) == {} <==>
        id in b.operations && OperationClean(c, a.operations[id], b.operations[id])
    {
      if id in b.operations {
        OperationReport(c, id, a.operations[id], b.operations[id]);
      }
    }
    if all != {} {
      var i :| i in all;
      var id :| id in a.operations && i in EntryIssues(c, a, b, id);
    }
  }

  // ---------------------------------------------------------------- preorder

  lemma OperationReflexive(c: Comparison, o: Operation)
    requires c.Ready() && c.od == c.nd
    ensures OperationClean(c, o, o)
  {
    forall s: Option<Schema>, mode: Mode
      ensures SchemaClean(c, s, s, mode)
    {
      AnyBelow(s, c.od, c.rank, c.k);
      CleanReflexive(s, c.od, mode, c.rank, c.k);
    }
  }

  /** A snapshot is compatible with itself. */
  lemma ReportReflexive(a: Snapshot, rank: map<string, nat>, k: nat)
    requires Acyclic(a.schemas, rank, k)
    ensures CompatibilityIssues(a, a, rank, k) == {}
  {
    var c := Comparison(a.schemas, a.schemas, rank, k);
    forall id | id in a.operations
      ensures OperationClean(c, a.operations[id], a.operations[id])
    {
      OperationReflexive(c, a.operations[id]);
    }
    EmptyApiReport(a, a, rank, k);
  }

  lemma SchemaTransitive(ab: Comparison, bc: Comparison, x: Option<Schema>, y: Option<Schema>, z: Option<Schema>,
                         mode: Mode)
    requires ab.Ready() && bc.Ready() && ab.nd == bc.od
    requires SchemaClean(ab, x, y, mode) && SchemaClean(bc, y, z, mode)
    ensures SchemaClean(ab.(nd := bc.nd), x, z, mode)
  {
    AnyBelow(x, ab.od, ab.rank, ab.k);
    AnyBelow(y, bc.od, bc.rank, bc.k);
    CleanTransitive(x, y, z, ab.od, ab.nd, bc.nd, mode, ab.rank, ab.k, bc.rank, bc.k);
  }

  lemma OperationTransitive(ab: Comparison, bc: Comparison, x: Operation, y: Operation, z: Operation)
    requires ab.Ready() && bc.Ready() && ab.nd == bc.od
    requires OperationClean(ab, x, y) && OperationClean(bc, y, z)
    ensures OperationClean(ab.(nd := bc.nd), x, z)
  {
    var px, py, pz := ByKey(x.parameters), ByKey(y.parameters), ByKey(z.parameters);
    forall key | key in px
      ensures key in pz && SchemaClean(ab.(nd := bc.nd), px[key].schema, pz[key].schema, Input)
    {
      SchemaTransitive(ab, bc, px[key].schema, py[key].schema, pz[key].schema, Input);
    }
    forall status | status in x.responses
      ensures status in z.responses &&
        SchemaClean(ab.(nd := bc.nd), x.responses[status], z.responses[status], Output)
    {
      SchemaTransitive(ab, bc, x.responses[status], y.responses[status], z.responses[status], Output);
    }
    if BodySchema(x).Some? {
      BodyTransitive(ab, bc, x, y, z);
    }
  }

  /** A body schema that leads nowhere constrains nothing, so the middle step may drop it. */
  lemma BodyTransitive(ab: Comparison, bc: Comparison, x: Operation, y: Operation, z: Operation)
    requires ab.Ready() && bc.Ready() && ab.nd == bc.od
    requires SchemaClean(ab, BodySchema(x), BodySchema(y), Input)
    requires BodySchema(y).Some? ==> SchemaClean(bc, BodySchema(y), BodySchema(z), Input)
    ensures SchemaClean(ab.(nd := bc.nd), BodySchema(x), BodySchema(z), Input)
  {
    if BodySchema(y).Some? {
      SchemaTransitive(ab, bc, BodySchema(x), BodySchema(y), BodySchema(z), Input);
    }
  }

  /** If a→b and b→c are reported clean, so is a→c: updating the baseline one compatible step at a
      time never hides a break from the original contract. */
  lemma ReportTransitive(a: Snapshot, b: Snapshot, c: Snapshot,
                         ra: map<string, nat>, ka: nat, rb: map<string, nat>, kb: nat)
    requires Acyclic(a.schemas, ra, ka) && Acyclic(b.schemas, rb, kb)
    requires CompatibilityIssues(a, b, ra, ka) == {} && CompatibilityIssues(b, c, rb, kb) == {}
    ensures CompatibilityIssues(a, c, ra, ka) == {}
  {
    var ab, bc := Comparison(a.schemas, b.schemas, ra, ka), Comparison(b.schemas, c.schemas, rb, kb);
    EmptyApiReport(a, b, ra, ka);
    EmptyApiReport(b, c, rb, kb);
    forall id | id in a.operations
      ensures id in c.operations && OperationClean(ab.(nd := bc.nd), a.operations[id], c.operations[id])
    {
      OperationTransitive(ab, bc, a.operations[id], b.operations[id], c.operations[id]);
    }
    EmptyApiReport(a, c, ra, ka);
  }

  // ---------------------------------------------------------------- the policy

  /** A request in the terms of one operation: a value for each parameter it sends, and a body. */
  datatype Request = Request(arguments: map<string, Json>, body: Option<Json>)

  ghost predicate Accepts(op: Operation, doc: Document, request: Request, matches: Regex) {
    && (forall key :: key in ByKey(op.parameters) && ByKey(op.parameters)[key].required ==> key in request.arguments)
    && (forall key :: key in request.arguments ==>
          && key in ByKey(op.parameters)
          && Valid(ByKey(op.parameters)[key].schema, doc, request.arguments[key], matches))
    && (BodyRequired(op) ==> request.body.Some?)
    && (request.body.Some? ==> Valid(BodySchema(op), doc, request.body.value, matches))
  }

  ghost predicate RequestsCovered(c: Comparison, o: Operation, n: Operation, matches: Regex)
    requires c.Ready()
  {
    && (forall key :: key in ByKey(o.parameters) && key in ByKey(n.parameters) ==>
          InputPairCovered(c, ByKey(o.parameters)[key].schema, ByKey(n.parameters)[key].schema, matches))
    && InputPairCovered(c, BodySchema(o), BodySchema(n), matches)
  }

  ghost predicate InputPairCovered(c: Comparison, o: Option<Schema>, n: Option<Schema>, matches: Regex)
    requires c.Ready()
  {
    AnyBelow(o, c.od, c.rank, c.k);
    InputCovered(o, n, c.od, c.nd, c.rank, c.k, matches)
  }

  ghost predicate OutputPairCovered(c: Comparison, o: Option<Schema>, n: Option<Schema>, matches: Regex)
    requires c.Ready()
  {
    AnyBelow(o, c.od, c.rank, c.k);
    OutputCovered(o, n, c.od, c.nd, c.rank, c.k, matches)
  }

  /** No accepted input is narrowed: after a clean report the new operation, at the old method and
      path, takes every request that the old one took. */
  lemma OldRequestsStillAccepted(a: Snapshot, b: Snapshot, rank: map<string, nat>, k: nat, id: string,
                                 request: Request, matches: Regex)
    requires Acyclic(a.schemas, rank, k) && CompatibilityIssues(a, b, rank, k) == {}
    requires id in a.operations && Accepts(a.operations[id], a.schemas, request, matches)
    requires id in b.operations ==>
      RequestsCovered(Comparison(a.schemas, b.schemas, rank, k), a.operations[id], b.operations[id], matches)
    ensures id in b.operations
    ensures b.operations[id].httpMethod == a.operations[id].httpMethod
    ensures b.operations[id].path == a.operations[id].path
    ensures Accepts(b.operations[id], b.schemas, request, matches)
  {
    EmptyApiReport(a, b, rank, k);
    var c := Comparison(a.schemas, b.schemas, rank, k);
    var o, n := a.operations[id], b.operations[id];
    forall key | key in request.arguments
      ensures key in ByKey(n.parameters)
      ensures Valid(ByKey(n.parameters)[key].schema, b.schemas, request.arguments[key], matches)
    {
      var s, t := ByKey(o.parameters)[key].schema, ByKey(n.parameters)[key].schema;
      AnyBelow(s, a.schemas, rank, k);
      InputSound(s, t, a.schemas, b.schemas, rank, k, request.arguments[key], matches);
    }
    if request.body.Some? && BodySchema(o).Some? {
      AnyBelow(BodySchema(o), a.schemas, rank, k);
      InputSound(BodySchema(o), BodySchema(n), a.schemas, b.schemas, rank, k, request.body.value, matches);
    }
    forall key | key in ByKey(n.parameters) && ByKey(n.parameters)[key].required
      ensures key in request.arguments
    {
      assert !BecameRequired(o, n, key);
    }
  }

  /** No response field is lost: whatever the new operation answers under a status that the old
      contract documents, the old contract describes. */
  lemma NewResponsesStillUnderstood(a: Snapshot, b: Snapshot, rank: map<string, nat>, k: nat, id: string,
                                    status: string, v: Json, matches: Regex)
    requires Acyclic(a.schemas, rank, k) && CompatibilityIssues(a, b, rank, k) == {}
    requires id in a.operations && status in a.operations[id].responses
    requires id in b.operations && status in b.operations[id].responses ==>
      && OutputPairCovered(Comparison(a.schemas, b.schemas, rank, k),
                           a.operations[id].responses[status], b.operations[id].responses[status], matches)
      && Valid(b.operations[id].responses[status], b.schemas, v, matches)
    ensures id in b.operations && status in b.operations[id].responses
    ensures Valid(a.operations[id].responses[status], a.schemas, v, matches)
  {
    EmptyApiReport(a, b, rank, k);
    var s, t := a.operations[id].responses[status], b.operations[id].responses[status];
    AnyBelow(s, a.schemas, rank, k);
    OutputSound(s, t, a.schemas, b.schemas, rank, k, v, matches);
  }
}
