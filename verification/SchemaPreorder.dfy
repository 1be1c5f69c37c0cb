/**
 When a comparison reports nothing. `Clean` says it without paths or lists; it is equivalent to an
 empty report, and it is a preorder, so updating the baseline step by step hides no break.
 */
module SchemaPreorder {
  import opened Options
  import opened OpenApiSchema
  import opened SchemaCompare

  predicate KeywordsKept(o: Schema, n: Schema, mode: Mode) {
    match mode
    case Input =>
      && (n.enum.Some? ==> o.enum.Some? && o.enum.value <= n.enum.value)
      && (o.nullable ==> n.nullable)
      && (n.minLength.Some? ==> o.minLength.Some? && n.minLength.value <= o.minLength.value)
      && (n.maxLength.Some? ==> o.maxLength.Some? && o.maxLength.value <= n.maxLength.value)
      && (n.minimum.Some? ==> o.minimum.Some? && n.minimum.value <= o.minimum.value)
      && (n.maximum.Some? ==> o.maximum.Some? && o.maximum.value <= n.maximum.value)
      && (n.pattern.Some? && n.pattern.value != "" ==> n.pattern == o.pattern)
    case Output =>
      && (o.enum.Some? ==> n.enum.Some? && n.enum.value <= o.enum.value)
      && (n.nullable ==> o.nullable)
  }

  predicate ObjectKept(o: Schema, n: Schema, mode: Mode) {
    match mode
    case Input => n.required <= o.required && (n.closed ==> o.closed)
    case Output => o.required <= n.required
  }

  ghost predicate Clean(old': Option<Schema>, new': Option<Schema>, od: Document, nd: Document, mode: Mode,
                        rank: map<string, nat>, k: nat)
    requires NodeBelow(old', od, rank, k)
    decreases k, old'.Some?, old'.GetOr(Any), 1
  {
    var o, n := Resolve(old', od), Resolve(new', nd);
    ResolveEnds(old', od, rank, k, {});
    o.Some? ==> n.Some? && NodeClean(o.value, n.value, od, nd, mode, rank, ChildRank(old', od, rank, k))
  }

  ghost predicate NodeClean(o: Schema, n: Schema, od: Document, nd: Document, mode: Mode,
                            rank: map<string, nat>, k: nat)
    requires NodeBelow(Some(o), od, rank, k) && !HasRef(Some(o))
    decreases k, true, o, 0
  {
    && EffectiveType(o) == EffectiveType(n)
    && KeywordsKept(o, n, mode)
    && (EffectiveType(o) == Some("array") ==> Clean(o.items, n.items, od, nd, mode, rank, k))
    && (EffectiveType(o) == Some("object") ==>
          && ObjectKept(o, n, mode)
          && forall name :: name in o.properties.Fields() ==>
               && name in n.properties.Fields()
               && Clean(Some(o.properties.Fields()[name]), Some(n.properties.Fields()[name]), od, nd, mode, rank, k))
  }

  // ---------------------------------------------------------------- an empty report

  lemma KeywordsReport(o: Schema, n: Schema, mode: Mode, path: string)
    ensures KeywordIssues(o, n, mode, path) == {} <==> KeywordsKept(o, n, mode)
  {
    EnumReport(o, n, mode, path);
  }

  lemma EnumReport(o: Schema, n: Schema, mode: Mode, path: string)
    ensures EnumIssues(o, n, mode, path) == {} <==>
      if mode.Input? then n.enum.Some? ==> o.enum.Some? && o.enum.value <= n.enum.value
      else o.enum.Some? ==> n.enum.Some? && n.enum.value <= o.enum.value
  {
    if mode.Input? && n.enum.Some? && o.enum.Some? {
      forall v | v in o.enum.value && v !in n.enum.value
        ensures Issue(path, InputEnumRemoved(v)) in EnumIssues(o, n, mode, path) {}
    }
    if mode.Output? && n.enum.Some? && o.enum.Some? {
      forall v | v in n.enum.value && v !in o.enum.value
        ensures Issue(path, ResponseEnumAdded(v)) in EnumIssues(o, n, mode, path) {}
    }
  }

  lemma NothingLeft(a: set<string>, b: set<string>)
    ensures a - b == {} <==> a <= b
  {
    forall x | x in a && x !in b
      ensures x in a - b {}
  }

  lemma ObjectReport(o: Schema, n: Schema, mode: Mode, path: string)
    ensures ObjectIssues(o, n, mode, path) == {} <==> ObjectKept(o, n, mode)
  {
    forall name | name in Unmatched(o, n, mode)
      ensures Issue(path + "." + name, RequiredIncompatible) in ObjectIssues(o, n, mode, path) {}
    NothingLeft(if mode.Input? then n.required else o.required, if mode.Input? then o.required else n.required);
    if mode.Input? && !o.closed && n.closed {
      assert Issue(path, AdditionalPropertiesRejected) in ObjectIssues(o, n, mode, path);
    }
  }

  /** The report of a schema comparison is empty exactly when the comparison is clean. */
  lemma {:induction false} EmptyReportIffClean(old': Option<Schema>, new': Option<Schema>, od: Document,
      nd: Document, mode: Mode, path: string, rank: map<string, nat>, k: nat)
    requires NodeBelow(old', od, rank, k)
    ensures Issues(old', new', od, nd, mode, path, rank, k) == {} <==> Clean(old', new', od, nd, mode, rank, k)
    decreases k, old'.Some?, old'.GetOr(Any), 1
  {
    var o, n := Resolve(old', od), Resolve(new', nd);
    if o.Some? && n.Some? {
      ResolveEnds(old', od, rank, k, {});
      EmptyNodeReport(o.value, n.value, od, nd, mode, path, rank, ChildRank(old', od, rank, k));
    }
  }

  lemma {:induction false} EmptyNodeReport(o: Schema, n: Schema, od: Document, nd: Document, mode: Mode,
      path: string, rank: map<string, nat>, k: nat)
    requires NodeBelow(Some(o), od, rank, k) && !HasRef(Some(o))
    ensures NodeIssues(o, n, od, nd, mode, path, rank, k) == {} <==> NodeClean(o, n, od, nd, mode, rank, k)
    decreases k, true, o, 0
  {
    KeywordsReport(o, n, mode, path);
    if EffectiveType(o) == EffectiveType(n) == Some("array") {
      EmptyReportIffClean(o.items, n.items, od, nd, mode, path + "[]", rank, k);
    } else if EffectiveType(o) == EffectiveType(n) == Some("object") {
      ObjectReport(o, n, mode, path);
      EmptyPropertyReport(o, n, od, nd, mode, path, rank, k);
    }
  }

  lemma {:induction false} EmptyPropertyReport(o: Schema, n: Schema, od: Document, nd: Document, mode: Mode,
      path: string, rank: map<string, nat>, k: nat)
    requires NodeBelow(Some(o), od, rank, k) && !HasRef(Some(o))
    ensures PropertyIssues(o, n, od, nd, mode, path, rank, k, o.properties.Fields().Keys) == {} <==>
      forall name :: name in o.properties.Fields() ==>
        && name in n.properties.Fields()
        && Clean(Some(o.properties.Fields()[name]), Some(n.properties.Fields()[name]), od, nd, mode, rank, k)
    decreases k, true, o, 0, 0
  {
    var all := PropertyIssues(o, n, od, nd, mode, path, rank, k, o.properties.Fields().Keys);
    forall name | name in o.properties.Fields()
      ensures var one := OneProperty(o, n, od, nd, mode, path, rank, k, name);
        && one <= all
        && (one == {} <==>
             && name in n.properties.Fields()
             && Clean(Some(o.properties.Fields()[name]), Some(n.properties.Fields()[name]), od, nd, mode, rank, k))
    {
      if name in n.properties.Fields() {
        EmptyReportIffClean(Some(o.properties.Fields()[name]), Some(n.properties.Fields()[name]),
                            od, nd, mode, path + "." + name, rank, k);
      }
    }
    if all != {} {
      var i :| i in all;
      var name :| name in o.properties.Fields() && i in OneProperty(o, n, od, nd, mode, path, rank, k, name);
    }
  }

  // ---------------------------------------------------------------- preorder

  lemma {:induction false} CleanReflexive(s: Option<Schema>, doc: Document, mode: Mode, rank: map<string, nat>, k: nat)
    requires NodeBelow(s, doc, rank, k)
    ensures Clean(s, s, doc, doc, mode, rank, k)
    decreases k, s.Some?, s.GetOr(Any), 1
  {
    var r := Resolve(s, doc);
    ResolveEnds(s, doc, rank, k, {});
    if r.Some? {
      var k' := ChildRank(s, doc, rank, k);
      CleanReflexive(r.value.items, doc, mode, rank, k');
      forall name | name in r.value.properties.Fields()
        ensures Clean(Some(r.value.properties.Fields()[name]), Some(r.value.properties.Fields()[name]),
                      doc, doc, mode, rank, k')
      {
        CleanReflexive(Some(r.value.properties.Fields()[name]), doc, mode, rank, k');
      }
    }
  }

  lemma {:induction false} CleanTransitive(a: Option<Schema>, b: Option<Schema>, c: Option<Schema>,
      ad: Document, bd: Document, cd: Document, mode: Mode,
      ra: map<string, nat>, ka: nat, rb: map<string, nat>, kb: nat)
    requires NodeBelow(a, ad, ra, ka) && NodeBelow(b, bd, rb, kb)
    requires Clean(a, b, ad, bd, mode, ra, ka) && Clean(b, c, bd, cd, mode, rb, kb)
    ensures Clean(a, c, ad, cd, mode, ra, ka)
    decreases ka, a.Some?, a.GetOr(Any), 1
  {
    var x, y, z := Resolve(a, ad), Resolve(b, bd), Resolve(c, cd);
    if x.Some? {
      ResolveEnds(a, ad, ra, ka, {});
      ResolveEnds(b, bd, rb, kb, {});
      NodeCleanTransitive(x.value, y.value, z.value, ad, bd, cd, mode,
                          ra, ChildRank(a, ad, ra, ka), rb, ChildRank(b, bd, rb, kb));
    }
  }

  lemma {:induction false} NodeCleanTransitive(x: Schema, y: Schema, z: Schema, ad: Document, bd: Document,
      cd: Document, mode: Mode, ra: map<string, nat>, ka: nat, rb: map<string, nat>, kb: nat)
    requires NodeBelow(Some(x), ad, ra, ka) && !HasRef(Some(x))
    requires NodeBelow(Some(y), bd, rb, kb) && !HasRef(Some(y))
    requires NodeClean(x, y, ad, bd, mode, ra, ka) && NodeClean(y, z, bd, cd, mode, rb, kb)
    ensures NodeClean(x, z, ad, cd, mode, ra, ka)
    decreases ka, true, x, 0
  {
    if EffectiveType(x) == Some("array") {
      CleanTransitive(x.items, y.items, z.items, ad, bd, cd, mode, ra, ka, rb, kb);
    }
    if EffectiveType(x) == Some("object") {
      var p, q, r := x.properties.Fields(), y.properties.Fields(), z.properties.Fields();
      forall name | name in p
        ensures name in r && Clean(Some(p[name]), Some(r[name]), ad, cd, mode, ra, ka)
      {
        CleanTransitive(Some(p[name]), Some(q[name]), Some(r[name]), ad, bd, cd, mode, ra, ka, rb, kb);
      }
    }
  }
}
