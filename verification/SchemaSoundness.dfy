/**
 What a clean comparison promises about JSON values: nothing that the old contract accepted as input
 is refused by the new one, and nothing that the new contract sends is unknown to the old one.
 The checker keeps that promise on the schema pairs described by `InputCovered` and `OutputCovered`; the
 lemmas at the end show what happens outside them.
 */
module SchemaSoundness {
  import opened Options
  import opened OpenApiSchema
  import opened SchemaCompare
  import opened SchemaPreorder

  ghost predicate AcceptsAll(s: Option<Schema>, doc: Document, matches: Regex) {
    forall v :: Valid(s, doc, v, matches)
  }

  /** What input mode does not compare must not narrow: a type that is stated only now, a schema that
      appears where none was, and the arrays and objects of an untyped node. */
  ghost predicate InputCovered(old': Option<Schema>, new': Option<Schema>, od: Document, nd: Document,
                               rank: map<string, nat>, k: nat, matches: Regex)
    requires NodeBelow(old', od, rank, k)
    decreases k, old'.Some?, old'.GetOr(Any), 1
  {
    var o, n := Resolve(old', od), Resolve(new', nd);
    ResolveEnds(old', od, rank, k, {});
    && (o.None? ==> AcceptsAll(new', nd, matches))
    && (o.Some? && n.Some? ==> NodeInputCovered(o.value, n.value, od, nd, rank, ChildRank(old', od, rank, k), matches))
  }

  ghost predicate NodeInputCovered(o: Schema, n: Schema, od: Document, nd: Document,
                                   rank: map<string, nat>, k: nat, matches: Regex)
    requires NodeBelow(Some(o), od, rank, k) && !HasRef(Some(o))
    decreases k, true, o, 0
  {
    && (o.typ.None? ==> n.typ.None? && AcceptsAll(n.items, nd, matches))
    && (EffectiveType(o) == None ==> ObjectKept(o, n, Input))
    && (o.typ == Some("array") ==> InputCovered(o.items, n.items, od, nd, rank, k, matches))
    && (EffectiveType(o) == Some("object") ==>
          forall name :: name in n.properties.Fields() ==>
            if name in o.properties.Fields() then
              InputCovered(Some(o.properties.Fields()[name]), Some(n.properties.Fields()[name]),
                           od, nd, rank, k, matches)
            else
              o.closed || AcceptsAll(Some(n.properties.Fields()[name]), nd, matches))
  }

  /** What output mode does not compare must not widen: an old bound, pattern or closing is kept or made
      narrower; a type is not dropped, and the arrays and objects of an untyped node stay within the old
      ones. */
  ghost predicate OutputCovered(old': Option<Schema>, new': Option<Schema>, od: Document, nd: Document,
                                rank: map<string, nat>, k: nat, matches: Regex)
    requires NodeBelow(old', od, rank, k)
    decreases k, old'.Some?, old'.GetOr(Any), 1
  {
    var o, n := Resolve(old', od), Resolve(new', nd);
    ResolveEnds(old', od, rank, k, {});
    o.Some? && n.Some? ==> NodeOutputCovered(o.value, n.value, od, nd, rank, ChildRank(old', od, rank, k), matches)
  }

  ghost predicate NodeOutputCovered(o: Schema, n: Schema, od: Document, nd: Document,
                                    rank: map<string, nat>, k: nat, matches: Regex)
    requires NodeBelow(Some(o), od, rank, k) && !HasRef(Some(o))
    decreases k, true, o, 0
  {
    && (o.closed ==> n.closed && n.properties.Fields().Keys <= o.properties.Fields().Keys)
    && (o.minLength.Some? ==> n.minLength.Some? && o.minLength.value <= n.minLength.value)
    && (o.maxLength.Some? ==> n.maxLength.Some? && n.maxLength.value <= o.maxLength.value)
    && (o.minimum.Some? ==> n.minimum.Some? && o.minimum.value <= n.minimum.value)
    && (o.maximum.Some? ==> n.maximum.Some? && n.maximum.value <= o.maximum.value)
    && (o.pattern.Some? && o.pattern.value != "" ==> n.pattern == o.pattern)
    && (n.typ.None? ==> o.typ.None? && AcceptsAll(o.items, od, matches))
    && (EffectiveType(n) == None ==> o.required <= n.required)
    && (n.typ == Some("array") ==> OutputCovered(o.items, n.items, od, nd, rank, k, matches))
    && (EffectiveType(n) == Some("object") ==>
          forall name :: name in o.properties.Fields() && name in n.properties.Fields() ==>
            OutputCovered(Some(o.properties.Fields()[name]), Some(n.properties.Fields()[name]),
                          od, nd, rank, k, matches))
  }

  /** Every value that the old input schema accepts, the new one accepts. */
  lemma {:induction false} InputSound(old': Option<Schema>, new': Option<Schema>, od: Document, nd: Document,
      rank: map<string, nat>, k: nat, v: Json, matches: Regex)
    requires NodeBelow(old', od, rank, k)
    requires Clean(old', new', od, nd, Input, rank, k)
    requires InputCovered(old', new', od, nd, rank, k, matches)
    requires Valid(old', od, v, matches)
    ensures Valid(new', nd, v, matches)
    decreases v
  {
    var o, n := Resolve(old', od), Resolve(new', nd);
    ResolveEnds(old', od, rank, k, {});
    if o.Some? {
      var k' := ChildRank(old', od, rank, k);
      InputKeywords(o.value, n.value, od, nd, rank, k', v, matches);
      if v.Arr? {
        forall i | 0 <= i < |v.elements|
          ensures Valid(n.value.items, nd, v.elements[i], matches)
        {
          if o.value.typ.Some? {
            InputSound(o.value.items, n.value.items, od, nd, rank, k', v.elements[i], matches);
          }
        }
      } else if v.Obj? {
        var p, q := o.value.properties.Fields(), n.value.properties.Fields();
        forall name | name in v.fields && name in q
          ensures Valid(Some(q[name]), nd, v.fields[name], matches)
        {
          if name in p {
            InputSound(Some(p[name]), Some(q[name]), od, nd, rank, k', v.fields[name], matches);
          }
        }
      }
    }
  }

  lemma InputKeywords(o: Schema, n: Schema, od: Document, nd: Document, rank: map<string, nat>, k: nat,
                      v: Json, matches: Regex)
    requires NodeBelow(Some(o), od, rank, k) && !HasRef(Some(o))
    requires NodeClean(o, n, od, nd, Input, rank, k) && NodeInputCovered(o, n, od, nd, rank, k, matches)
    requires KeywordsHold(o, v, matches)
    ensures KeywordsHold(n, v, matches)
    ensures v.Arr? && o.typ.Some? ==> o.typ == Some("array")
    ensures v.Obj? && EffectiveType(o).Some? ==> EffectiveType(o) == Some("object")
  {
  }

  /** Every value that the new output schema can produce, the old one describes. */
  lemma {:induction false} OutputSound(old': Option<Schema>, new': Option<Schema>, od: Document, nd: Document,
      rank: map<string, nat>, k: nat, v: Json, matches: Regex)
    requires NodeBelow(old', od, rank, k)
    requires Clean(old', new', od, nd, Output, rank, k)
    requires OutputCovered(old', new', od, nd, rank, k, matches)
    requires Valid(new', nd, v, matches)
    ensures Valid(old', od, v, matches)
    decreases v
  {
    var o, n := Resolve(old', od), Resolve(new', nd);
    ResolveEnds(old', od, rank, k, {});
    if o.Some? {
      var k' := ChildRank(old', od, rank, k);
      OutputKeywords(o.value, n.value, od, nd, rank, k', v, matches);
      if v.Arr? {
        forall i | 0 <= i < |v.elements|
          ensures Valid(o.value.items, od, v.elements[i], matches)
        {
          if n.value.typ.Some? {
            OutputSound(o.value.items, n.value.items, od, nd, rank, k', v.elements[i], matches);
          }
        }
      } else if v.Obj? {
        var p, q := o.value.properties.Fields(), n.value.properties.Fields();
        forall name | name in v.fields && name in p
          ensures Valid(Some(p[name]), od, v.fields[name], matches)
        {
          OutputSound(Some(p[name]), Some(q[name]), od, nd, rank, k', v.fields[name], matches);
        }
      }
    }
  }

  lemma OutputKeywords(o: Schema, n: Schema, od: Document, nd: Document, rank: map<string, nat>, k: nat,
                       v: Json, matches: Regex)
    requires NodeBelow(Some(o), od, rank, k) && !HasRef(Some(o))
    requires NodeClean(o, n, od, nd, Output, rank, k) && NodeOutputCovered(o, n, od, nd, rank, k, matches)
    requires KeywordsHold(n, v, matches)
    ensures KeywordsHold(o, v, matches)
    ensures v.Arr? && n.typ.Some? ==> n.typ == Some("array")
    ensures v.Obj? && EffectiveType(n).Some? ==> EffectiveType(n) == Some("object")
  {
  }

  // ---------------------------------------------------------------- outside the covered pairs

  const AnyObject := Any.(typ := Some("object"))

  ghost predicate Included(o: Schema, n: Schema, doc: Document, matches: Regex) {
    forall v :: Valid(Some(o), doc, v, matches) ==> Valid(Some(n), doc, v, matches)
  }

  /** Giving any old array without `items` an item schema is reported as compatible; without an enum it
      is so exactly when that schema accepts every value. */
  lemma AddedItemsGap(o: Schema, items: Schema, doc: Document, rank: map<string, nat>, k: nat, matches: Regex)
    requires NodeBelow(Some(o), doc, rank, k) && !HasRef(Some(o))
    requires o.typ == Some("array") && o.items.None? && o.enum.None?
    ensures var n := o.(items := Some(items));
      && Issues(Some(o), Some(n), doc, doc, Input, "", rank, k) == {}
      && (Included(o, n, doc, matches) <==> AcceptsAll(Some(items), doc, matches))
  {
    var n := o.(items := Some(items));
    AddedItemsAreClean(o, items, doc, rank, k);
    EmptyReportIffClean(Some(o), Some(n), doc, doc, Input, "", rank, k);
    hide Issues, Clean;
    assert Resolve(Some(n), doc) == Some(n) && Resolve(Some(o), doc) == Some(o);
    if Included(o, n, doc, matches) {
      forall w ensures Valid(Some(items), doc, w, matches) {
        assert Valid(Some(o), doc, Arr([w]), matches);
        assert Arr([w]).elements[0] == w;
      }
    }
    if AcceptsAll(Some(items), doc, matches) {
      forall v | Valid(Some(o), doc, v, matches) ensures Valid(Some(n), doc, v, matches) {}
    }
  }

  lemma AddedItemsAreClean(o: Schema, items: Schema, doc: Document, rank: map<string, nat>, k: nat)
    requires NodeBelow(Some(o), doc, rank, k) && !HasRef(Some(o)) && o.typ == Some("array") && o.items.None?
    ensures Clean(Some(o), Some(o.(items := Some(items))), doc, doc, Input, rank, k)
  {
    var n := o.(items := Some(items));
    assert Resolve(Some(n), doc) == Some(n) && Resolve(Some(o), doc) == Some(o);
    assert Clean(o.items, n.items, doc, doc, Input, rank, k);
    assert NodeClean(o, n, doc, doc, Input, rank, k);
  }

  function WithProperty(o: Schema, name: string, property: Schema): Schema {
    o.(properties := Properties(o.properties.Fields()[name := property]))
  }

  /** Declaring a further property on any old open object is reported as compatible; for one that has a
      value and no enum it is so exactly when the property's schema accepts every value. */
  lemma AddedPropertyGap(o: Schema, name: string, property: Schema, doc: Document, rank: map<string, nat>, k: nat,
                         fields: map<string, Json>, matches: Regex)
    requires NodeBelow(Some(o), doc, rank, k) && !HasRef(Some(o))
    requires EffectiveType(o) == Some("object") && !o.closed && o.enum.None? && name !in o.properties.Fields()
    requires Valid(Some(o), doc, Obj(fields), matches)
    ensures var n := WithProperty(o, name, property);
      && Issues(Some(o), Some(n), doc, doc, Input, "", rank, k) == {}
      && (Included(o, n, doc, matches) <==> AcceptsAll(Some(property), doc, matches))
  {
    AddedPropertyIsClean(o, name, property, doc, rank, k);
    EmptyReportIffClean(Some(o), Some(WithProperty(o, name, property)), doc, doc, Input, "", rank, k);
    AddedPropertyNarrows(o, name, property, doc, fields, matches);
  }

  lemma AddedPropertyNarrows(o: Schema, name: string, property: Schema, doc: Document, fields: map<string, Json>,
                             matches: Regex)
    requires !HasRef(Some(o)) && !o.closed && o.enum.None? && name !in o.properties.Fields()
    requires Valid(Some(o), doc, Obj(fields), matches)
    ensures Included(o, WithProperty(o, name, property), doc, matches) <==> AcceptsAll(Some(property), doc, matches)
  {
    var n := WithProperty(o, name, property);
    assert Resolve(Some(n), doc) == Some(n) && Resolve(Some(o), doc) == Some(o);
    if Included(o, n, doc, matches) {
      forall w ensures Valid(Some(property), doc, w, matches) {
        AnyValueFits(o, name, doc, fields, w, matches);
        PropertyHolds(n, name, doc, Obj(fields[name := w]), matches);
      }
    }
    if AcceptsAll(Some(property), doc, matches) {
      forall v | Valid(Some(o), doc, v, matches) ensures Valid(Some(n), doc, v, matches) {}
    }
  }

  lemma PropertyHolds(n: Schema, name: string, doc: Document, v: Json, matches: Regex)
    requires !HasRef(Some(n)) && name in n.properties.Fields() && v.Obj? && name in v.fields
    requires Valid(Some(n), doc, v, matches)
    ensures Valid(Some(n.properties.Fields()[name]), doc, v.fields[name], matches)
  {
    assert Resolve(Some(n), doc) == Some(n);
  }

  lemma AddedPropertyIsClean(o: Schema, name: string, property: Schema, doc: Document, rank: map<string, nat>, k: nat)
    requires NodeBelow(Some(o), doc, rank, k) && !HasRef(Some(o))
    requires EffectiveType(o) == Some("object") && name !in o.properties.Fields()
    ensures Clean(Some(o), Some(WithProperty(o, name, property)), doc, doc, Input, rank, k)
  {
    var n := WithProperty(o, name, property);
    assert Resolve(Some(n), doc) == Some(n) && Resolve(Some(o), doc) == Some(o);
    forall other | other in o.properties.Fields()
      ensures Clean(Some(o.properties.Fields()[other]), Some(n.properties.Fields()[other]), doc, doc, Input, rank, k)
    {
      CleanReflexive(Some(o.properties.Fields()[other]), doc, Input, rank, k);
    }
  }

  /** An open object takes any value under a name it does not declare. */
  lemma AnyValueFits(o: Schema, name: string, doc: Document, fields: map<string, Json>, w: Json, matches: Regex)
    requires !HasRef(Some(o)) && !o.closed && o.enum.None? && name !in o.properties.Fields()
    requires Valid(Some(o), doc, Obj(fields), matches)
    ensures Valid(Some(o), doc, Obj(fields[name := w]), matches)
  {
    assert Resolve(Some(o), doc) == Some(o);
    assert Obj(fields[name := w]).fields == fields[name := w];
  }

  /** Properties without a type read as an object type, so stating the type is not reported, although
      it turns away every other kind of value. */
  lemma UntypedGap(matches: Regex)
    ensures var old' := Any.(properties := Properties(map[])); var new' := old'.(typ := Some("object"));
      && Issues(Some(old'), Some(new'), map[], map[], Input, "", map[], 0) == {}
      && Valid(Some(old'), map[], Null, matches) && !Valid(Some(new'), map[], Null, matches)
  {
    var old' := Any.(properties := Properties(map[]));
    EmptyReportIffClean(Some(old'), Some(old'.(typ := Some("object"))), map[], map[], Input, "", map[], 0);
  }

  /** A response may outgrow the old length limit without being reported. */
  lemma DroppedBoundGap(limit: nat, matches: Regex)
    ensures var new' := Any.(typ := Some("string")); var old' := new'.(maxLength := Some(limit));
      var long := Str(seq(limit + 1, _ => 'x'));
      && Issues(Some(old'), Some(new'), map[], map[], Output, "", map[], 0) == {}
      && Valid(Some(new'), map[], long, matches) && !Valid(Some(old'), map[], long, matches)
  {
    var new' := Any.(typ := Some("string"));
    EmptyReportIffClean(Some(new'.(maxLength := Some(limit))), Some(new'), map[], map[], Output, "", map[], 0);
  }

  /** A response may carry a new property although the old object was closed. */
  lemma ClosedObjectGap(name: string, matches: Regex)
    ensures var old' := AnyObject.(closed := true); var v := Obj(map[name := Null]);
      && Issues(Some(old'), Some(AnyObject), map[], map[], Output, "", map[], 0) == {}
      && Valid(Some(AnyObject), map[], v, matches) && !Valid(Some(old'), map[], v, matches)
  {
    var v := Obj(map[name := Null]);
    assert name in v.fields.Keys;
    EmptyReportIffClean(Some(AnyObject.(closed := true)), Some(AnyObject), map[], map[], Output, "", map[], 0);
  }
}
