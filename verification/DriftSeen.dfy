/** The other half of drift detection: which contract changes are seen. */
module DriftSeen {
  import opened Options
  import opened Json
  import opened Drift
  import opened Coverage
  import opened Text

  /** The references an expansion of `v` meets: not those in prose, nor those beside or
      inside another reference. */
  function Meets(v: Json): set<string>
    decreases Size(v), 0
  {
    match RefOf(v)
    case Some(r) => {r}
    case None =>
      match v
      case Obj(fields) => FieldsMeet(fields)
      case Arr(items) => ItemsMeet(items)
      case _ => {}
  }

  function FieldsMeet(fields: seq<Field>): set<string>
    decreases SizeFields(fields), 1
  {
    if fields == [] then {}
    else (if fields[0].key in PROSE then {} else Meets(fields[0].value)) + FieldsMeet(fields[1..])
  }

  function ItemsMeet(items: seq<Json>): set<string>
    decreases SizeItems(items), 1
  {
    if items == [] then {} else Meets(items[0]) + ItemsMeet(items[1..])
  }

  /** What a reference stands for under a stack. */
  function Shape(r: string, spec: Json, stack: seq<string>): Json {
    if r in stack then Str(r)
    else match Deref(spec, r) case None => Str(r) case Some(def) => Resolve(def, spec, stack + [r])
  }

  ghost predicate SameShapes(refs: set<string>, spec: Json, spec': Json, stack: seq<string>) {
    forall r | r in refs :: Shape(r, spec, stack) == Shape(r, spec', stack)
  }

  lemma {:induction false} ShapeOfRef(v: Json, spec: Json, stack: seq<string>)
    requires RefOf(v).Some?
    ensures Resolve(v, spec, stack) == Shape(RefOf(v).value, spec, stack)
  {
  }

  /** One schema in two specs expands differently exactly when some reference it meets
      stands for different shapes: a change anywhere below is never cancelled out. */
  lemma {:induction false} DriftReachesTheSchema(v: Json, spec: Json, spec': Json, stack: seq<string>)
    ensures Resolve(v, spec, stack) == Resolve(v, spec', stack) <==> SameShapes(Meets(v), spec, spec', stack)
    decreases Size(v), 0
  {
    if RefOf(v).Some? {
      ShapeOfRef(v, spec, stack);
      ShapeOfRef(v, spec', stack);
      assert RefOf(v).value in Meets(v);
    } else {
      match v
      case Obj(fields) => DriftReachesFields(fields, spec, spec', stack);
      case Arr(items) => DriftReachesItems(items, spec, spec', stack);
      case _ =>
    }
  }

  lemma {:induction false} DriftReachesFields(fields: seq<Field>, spec: Json, spec': Json, stack: seq<string>)
    ensures ResolveFields(fields, spec, stack) == ResolveFields(fields, spec', stack)
            <==> SameShapes(FieldsMeet(fields), spec, spec', stack)
    decreases SizeFields(fields), 1
  {
    hide Resolve, Shape, Meets;
    if fields != [] {
      var x, y := ResolveFields(fields[1..], spec, stack), ResolveFields(fields[1..], spec', stack);
      DriftReachesFields(fields[1..], spec, spec', stack);
      if fields[0].key in PROSE {
        assert ResolveFields(fields, spec, stack) == x && ResolveFields(fields, spec', stack) == y;
      } else {
        DriftReachesTheSchema(fields[0].value, spec, spec', stack);
        assert ResolveFields(fields, spec, stack)[1..] == x && ResolveFields(fields, spec', stack)[1..] == y;
      }
    }
  }

  lemma {:induction false} DriftReachesItems(items: seq<Json>, spec: Json, spec': Json, stack: seq<string>)
    ensures ResolveItems(items, spec, stack) == ResolveItems(items, spec', stack)
            <==> SameShapes(ItemsMeet(items), spec, spec', stack)
    decreases SizeItems(items), 1
  {
    hide Resolve, Shape, Meets;
    if items != [] {
      var x, y := ResolveItems(items[1..], spec, stack), ResolveItems(items[1..], spec', stack);
      DriftReachesItems(items[1..], spec, spec', stack);
      DriftReachesTheSchema(items[0], spec, spec', stack);
      assert ResolveItems(items, spec, stack)[1..] == x && ResolveItems(items, spec', stack)[1..] == y;
    }
  }

  // --- where no reference is met ---

  lemma {:induction false} PlainIsStripped(v: Json, spec: Json, stack: seq<string>)
    requires Meets(v) == {}
    ensures Resolve(v, spec, stack) == Strip(v)
    decreases Size(v), 0
  {
    match v
    case Obj(fields) => PlainFieldsAreStripped(fields, spec, stack);
    case Arr(items) => PlainItemsAreStripped(items, spec, stack);
    case _ =>
  }

  lemma {:induction false} PlainFieldsAreStripped(fields: seq<Field>, spec: Json, stack: seq<string>)
    requires FieldsMeet(fields) == {}
    ensures ResolveFields(fields, spec, stack) == StripFields(fields)
    decreases SizeFields(fields), 1
  {
    if fields != [] {
      PlainFieldsAreStripped(fields[1..], spec, stack);
      if fields[0].key !in PROSE { PlainIsStripped(fields[0].value, spec, stack); }
    }
  }

  lemma {:induction false} PlainItemsAreStripped(items: seq<Json>, spec: Json, stack: seq<string>)
    requires ItemsMeet(items) == {}
    ensures ResolveItems(items, spec, stack) == StripItems(items)
    decreases SizeItems(items), 1
  {
    if items != [] {
      PlainItemsAreStripped(items[1..], spec, stack);
      PlainIsStripped(items[0], spec, stack);
    }
  }

  /** Without references: everything but prose is contract. */
  lemma PlainDriftIsExact(a: Json, specA: Json, b: Json, specB: Json)
    requires Meets(a) == {} && Meets(b) == {}
    ensures Resolve(a, specA, []) == Resolve(b, specB, []) <==> Strip(a) == Strip(b)
  {
    PlainIsStripped(a, specA, []);
    PlainIsStripped(b, specB, []);
  }

  // --- where a reference leads ---

  /** `def` stands in `v` under those member names, one inside the other. */
  ghost predicate Placed(v: Json, segs: seq<string>, def: Json)
    decreases |segs|
  {
    if segs == [] then v == def
    else
      v.Obj? &&
      exists i | 0 <= i < |v.fields| ::
        && v.fields[i].key == segs[0] && (forall j | 0 <= j < i :: v.fields[j].key != segs[0])
        && Placed(v.fields[i].value, segs[1..], def)
  }

  /** The reference spells out a placement: "#/" and the names with slashes between. */
  ghost predicate LeadsTo(spec: Json, r: string, def: Json) {
    exists segs: seq<string> ::
      && segs != [] && (forall seg | seg in segs :: '/' !in seg)
      && r == "#/" + Join(segs, '/') && Placed(spec, segs, def)
  }

  lemma {:induction false} MemberAt(fields: seq<Field>, key: string)
    ensures Lookup(fields, key).Some? <==> exists i | 0 <= i < |fields| :: fields[i].key == key
    ensures forall i | 0 <= i < |fields| && fields[i].key == key && (forall j | 0 <= j < i :: fields[j].key != key) ::
              Lookup(fields, key) == Some(fields[i].value)
    ensures Lookup(fields, key).Some? ==>
              exists i | 0 <= i < |fields| ::
                && fields[i].key == key && (forall j | 0 <= j < i :: fields[j].key != key)
                && fields[i].value == Lookup(fields, key).value
  {
    if fields != [] {
      MemberAt(fields[1..], key);
      if fields[0].key != key {
        forall i | 0 <= i < |fields| && fields[i].key == key && (forall j | 0 <= j < i :: fields[j].key != key)
          ensures Lookup(fields, key) == Some(fields[i].value)
        {
          assert i > 0 && fields[1..][i - 1] == fields[i];
          forall j | 0 <= j < i - 1 ensures fields[1..][j].key != key { assert fields[j + 1].key != key; }
        }
        if Lookup(fields, key).Some? {
          var i :| 0 <= i < |fields[1..]| && fields[1..][i].key == key
              && (forall j | 0 <= j < i :: fields[1..][j].key != key)
                   && fields[1..][i].value == Lookup(fields, key).value;
          forall j | 0 <= j < i + 1 ensures fields[j].key != key { if j > 0 { assert fields[1..][j - 1].key != key; } }
          assert fields[i + 1].value == Lookup(fields, key).value;
        }
      }
    }
  }

  lemma {:induction false} WalkPlaces(v: Json, segs: seq<string>, def: Json)
    ensures Walk(v, segs) == Some(def) <==> Placed(v, segs, def)
    decreases |segs|
  {
    if segs != [] && v.Obj? {
      MemberAt(v.fields, segs[0]);
      if Lookup(v.fields, segs[0]).Some? {
        WalkPlaces(Lookup(v.fields, segs[0]).value, segs[1..], def);
      }
    }
  }

  lemma {:induction false} JoinedSplits(segs: seq<string>)
    requires segs != [] && forall seg | seg in segs :: '/' !in seg
    ensures Split(Join(segs, '/'), '/') == segs
  {
    SplitWhole(segs[0], '/');
    assert segs[0] in segs;
    if |segs| == 1 {
      assert segs == [segs[0]];
    } else {
      JoinedSplits(segs[1..]);
      SplitJoined(segs[0], Join(segs[1..], '/'), '/');
      assert segs == [segs[0]] + segs[1..];
    }
  }

  /** The members a reference names, one inside the other, lead to what it is. */
  lemma DerefLeads(spec: Json, r: string, def: Json)
    ensures Deref(spec, r) == Some(def) <==> LeadsTo(spec, r, def)
  {
    hide Walk, Split, Join, Placed;
    if Deref(spec, r) == Some(def) {
      var path := StripPrefix(r, "#/").value;
      var segs := Split(path, '/');
      SplitJoins(path, '/');
      WalkPlaces(spec, segs, def);
      assert r == "#/" + Join(segs, '/');
    }
    if LeadsTo(spec, r, def) {
      var segs: seq<string> :| segs != [] && (forall seg | seg in segs :: '/' !in seg)
                               && r == "#/" + Join(segs, '/') && Placed(spec, segs, def);
      JoinedSplits(segs);
      WalkPlaces(spec, segs, def);
      assert r[..2] == "#/" && r[2..] == Join(segs, '/');
    }
  }

  lemma RefIs(r: string)
    ensures RefOf(Obj([Field("$ref", Str(r))])) == Some(r)
  {
  }

  /** A reference expands to the expansion of what stands in the spec under the members it
      names, each inside the one before. */
  lemma ReferenceExpands(spec: Json, segs: seq<string>, def: Json)
    requires segs != [] && (forall seg | seg in segs :: '/' !in seg) && Placed(spec, segs, def)
    ensures var r := "#/" + Join(segs, '/');
            Resolve(Obj([Field("$ref", Str(r))]), spec, []) == Resolve(def, spec, [r])
  {
    hide Placed, Join, Deref;
    var r := "#/" + Join(segs, '/');
    assert LeadsTo(spec, r, def);
    DerefLeads(spec, r, def);
    RefIs(r);
    assert [] + [r] == [r];
  }

  /** ... and one that names nothing there stays as its name: another kind of reference, or
      one with a member missing on the way. */
  lemma DanglingStays(spec: Json, r: string)
    requires forall def :: !LeadsTo(spec, r, def)
    ensures Resolve(Obj([Field("$ref", Str(r))]), spec, []) == Str(r)
  {
    hide LeadsTo, Deref;
    RefIs(r);
    if Deref(spec, r).Some? { DerefLeads(spec, r, Deref(spec, r).value); }
  }

  lemma LeadsLocally(spec: Json, r: string, def: Json)
    ensures LeadsTo(spec, r, def) ==> "#/" <= r
  {
    hide Placed, Join;
  }

  lemma OtherReferencesDangle(spec: Json, r: string)
    requires !("#/" <= r)
    ensures Resolve(Obj([Field("$ref", Str(r))]), spec, []) == Str(r)
  {
    forall def ensures !LeadsTo(spec, r, def) { LeadsLocally(spec, r, def); }
    DanglingStays(spec, r);
  }

  // --- through references ---

  /** A schema whose references lead to definitions that meet no further one, in both
      specs: it has drifted exactly when one of those differs in more than prose. */
  lemma DefinitionsDecide(v: Json, spec: Json, spec': Json)
    requires forall r | r in Meets(v) ::
               && (exists def :: LeadsTo(spec, r, def) && Meets(def) == {})
               && (exists def :: LeadsTo(spec', r, def) && Meets(def) == {})
    ensures Resolve(v, spec, []) == Resolve(v, spec', []) <==>
            forall r, def, def' | r in Meets(v) && LeadsTo(spec, r, def) && LeadsTo(spec', r, def') ::
              Strip(def) == Strip(def')
  {
    hide Meets, Resolve, Deref, LeadsTo, Strip;
    DriftReachesTheSchema(v, spec, spec', []);
    forall r | r in Meets(v)
      ensures exists def, def' :: LeadsTo(spec, r, def) && LeadsTo(spec', r, def')
      ensures forall def, def' | LeadsTo(spec, r, def) && LeadsTo(spec', r, def') ::
                Shape(r, spec, []) == Strip(def) && Shape(r, spec', []) == Strip(def')
    {
      PlainShape(r, spec);
      PlainShape(r, spec');
    }
  }

  lemma PlainShape(r: string, spec: Json)
    requires exists def :: LeadsTo(spec, r, def) && Meets(def) == {}
    ensures forall def | LeadsTo(spec, r, def) :: Shape(r, spec, []) == Strip(def)
  {
    hide Meets, Resolve, Deref, LeadsTo, Strip;
    var plain :| LeadsTo(spec, r, plain) && Meets(plain) == {};
    DerefLeads(spec, r, plain);
    PlainIsStripped(plain, spec, [] + [r]);
    forall def | LeadsTo(spec, r, def) ensures Shape(r, spec, []) == Strip(def) { DerefLeads(spec, r, def); }
  }

  /** From `v` the references of `path` are met, each inside the definition the one before
      leads to: the same definitions in both specs, but for the last one's, which meet no
      further reference and differ in more than prose. */
  ghost predicate Chain(v: Json, spec: Json, spec': Json, path: seq<string>)
    decreases |path|
  {
    && path != [] && path[0] in Meets(v)
    && if |path| == 1 then
         exists def, def' ::
           && LeadsTo(spec, path[0], def) && LeadsTo(spec', path[0], def')
           && Meets(def) == {} && Meets(def') == {} && Strip(def) != Strip(def')
       else
         exists def :: LeadsTo(spec, path[0], def) && LeadsTo(spec', path[0], def) && Chain(def, spec, spec', path[1..])
  }

  predicate Fresh(path: seq<string>, stack: seq<string>) {
    && (forall r | r in path :: r !in stack)
    && forall i, j | 0 <= i < j < |path| :: path[i] != path[j]
  }

  /** A change of contract at the end of any chain of references is drift of the schema the
      chain starts from. */
  lemma {:induction false} DriftThroughChains(v: Json, spec: Json, spec': Json, path: seq<string>, stack: seq<string>)
    requires Chain(v, spec, spec', path) && Fresh(path, stack)
    ensures Resolve(v, spec, stack) != Resolve(v, spec', stack)
    decreases |path|
  {
    hide Meets, Resolve, Deref, Strip, SameShapes, LeadsTo;
    var r := path[0];
    assert path[0] in path;
    if |path| == 1 {
      var def, def' :| LeadsTo(spec, r, def) && LeadsTo(spec', r, def') && Meets(def) == {} && Meets(def') == {}
                       && Strip(def) != Strip(def');
      DerefLeads(spec, r, def);
      DerefLeads(spec', r, def');
      PlainIsStripped(def, spec, stack + [r]);
      PlainIsStripped(def', spec', stack + [r]);
    } else {
      var def :| LeadsTo(spec, r, def) && LeadsTo(spec', r, def) && Chain(def, spec, spec', path[1..]);
      DerefLeads(spec, r, def);
      DerefLeads(spec', r, def);
      forall x | x in path[1..] ensures x !in stack + [r] {}
      DriftThroughChains(def, spec, spec', path[1..], stack + [r]);
    }
    assert Shape(r, spec, stack) != Shape(r, spec', stack);
    DriftReachesTheSchema(v, spec, spec', stack);
    Differ(Meets(v), r, spec, spec', stack);
  }

  lemma Differ(refs: set<string>, r: string, spec: Json, spec': Json, stack: seq<string>)
    requires r in refs && Shape(r, spec, stack) != Shape(r, spec', stack)
    ensures !SameShapes(refs, spec, spec', stack)
  {
  }

  // --- as far as the fingerprint ---

  lemma {:induction false} ResponsesDrift(responses: seq<Field>, spec: Json, spec': Json)
    ensures NormResponses(responses, spec) == NormResponses(responses, spec') <==>
            forall f | f in responses :: Resolve(f.value, spec, []) == Resolve(f.value, spec', [])
  {
    hide Resolve;
    if responses != [] {
      ResponsesDrift(responses[1..], spec, spec');
      assert NormResponses(responses, spec)[1..] == NormResponses(responses[1..], spec);
      assert NormResponses(responses, spec')[1..] == NormResponses(responses[1..], spec');
      forall f ensures f in responses <==> f == responses[0] || f in responses[1..] {
        assert responses == [responses[0]] + responses[1..];
      }
    }
  }

  /** The schema of a request body that is declared. */
  function BodySchema(op: Json): Option<Json> {
    var content := Contents(Index(op, "requestBody"));
    if content == [] then None else Some(Index(content[0].value, "schema"))
  }

  /** An endpoint's material changes with the spec exactly when its parameters, the shape
      of its body or the shape of one of its responses does. */
  lemma EndpointDriftIsSeen(op: Json, spec: Json, spec': Json)
    requires Material(op, spec).Some? && Material(op, spec').Some?
    ensures Material(op, spec) == Material(op, spec') <==>
            && NormParams(GetArr(op, "parameters"), spec) == NormParams(GetArr(op, "parameters"), spec')
            && (BodySchema(op).Some? ==>
                  Resolve(BodySchema(op).value, spec, []) == Resolve(BodySchema(op).value, spec', []))
            && forall f | f in Statuses(op) :: Resolve(f.value, spec, []) == Resolve(f.value, spec', [])
  {
    hide Resolve, NormParams, NormResponses, Statuses, Contents;
    ResponsesDrift(Statuses(op), spec, spec');
    ThreeFields(Material(op, spec).value.fields, Material(op, spec').value.fields);
  }

  lemma ThreeFields(x: seq<Field>, y: seq<Field>)
    requires |x| == 3 && |y| == 3
    ensures x == y <==> x[0] == y[0] && x[1] == y[1] && x[2] == y[2]
  {
  }
}
