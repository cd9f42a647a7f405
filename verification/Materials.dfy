/** What an endpoint's fingerprint is made of, member by member. */
module Materials {
  import opened Options
  import opened Json
  import opened Drift
  import opened DriftSeen
  import opened Coverage
  import opened Text

  // --- schemas ---

  predicate IsReference(v: Json) { Get(v, "$ref").Some? && Get(v, "$ref").value.Str? }

  predicate IsProse(key: string) { key == "description" || key == "example" || key == "examples" || key == "title" }

  lemma {:induction false} MembersResolve(fields: seq<Field>, spec: Json, stack: seq<string>, key: string)
    ensures Lookup(ResolveFields(fields, spec, stack), key) ==
            if IsProse(key) then None
            else match Lookup(fields, key) case Some(x) => Some(Resolve(x, spec, stack)) case None => None
  {
    hide Resolve;
    if fields != [] {
      var rest := ResolveFields(fields[1..], spec, stack);
      MembersResolve(fields[1..], spec, stack, key);
      assert IsProse(fields[0].key) <==> fields[0].key in PROSE;
      var out := ResolveFields(fields, spec, stack);
      if fields[0].key in PROSE {
        assert out == rest;
      } else {
        assert out == [Field(fields[0].key, Resolve(fields[0].value, spec, stack))] + rest && out[1..] == rest;
      }
    }
  }

  /** Of an object, the four prose members go, whatever they hold, and every other one is
      there with its own expansion. */
  lemma MembersExpand(fields: seq<Field>, spec: Json, stack: seq<string>, key: string)
    requires !IsReference(Obj(fields))
    ensures Resolve(Obj(fields), spec, stack).Obj?
    ensures Get(Resolve(Obj(fields), spec, stack), key) ==
            if key == "description" || key == "example" || key == "examples" || key == "title" then None
            else match Lookup(fields, key) case Some(x) => Some(Resolve(x, spec, stack)) case None => None
  {
    hide ResolveFields;
    MembersResolve(fields, spec, stack, key);
    assert RefOf(Obj(fields)).None?;
  }

  lemma {:induction false} ItemsResolve(items: seq<Json>, spec: Json, stack: seq<string>)
    ensures var out := ResolveItems(items, spec, stack);
            |out| == |items| && forall i | 0 <= i < |items| :: out[i] == Resolve(items[i], spec, stack)
  {
    hide Resolve;
    if items != [] { ItemsResolve(items[1..], spec, stack); }
  }

  /** A list expands item by item; anything else but an object stays as it is. */
  lemma ItemsExpand(v: Json, spec: Json, stack: seq<string>)
    requires !v.Obj?
    ensures var out := Resolve(v, spec, stack);
            match v
            case Arr(items) =>
              && out.Arr? && |out.items| == |items|
              && forall i | 0 <= i < |items| :: out.items[i] == Resolve(items[i], spec, stack)
            case _ => out == v
  {
    if v.Arr? { ItemsResolve(v.items, spec, stack); }
  }

  /** A definition that refers to itself: the inner reference stays as its name. */
  lemma CyclesKeepTheName(spec: Json, segs: seq<string>)
    requires segs != [] && (forall seg | seg in segs :: '/' !in seg)
    requires var r := "#/" + Join(segs, '/');
             Placed(spec, segs, Obj([Field("next", Obj([Field("$ref", Str(r))])), Field("type", Str("object"))]))
    ensures var r := "#/" + Join(segs, '/');
            Resolve(Obj([Field("$ref", Str(r))]), spec, [])
            == Obj([Field("next", Str(r)), Field("type", Str("object"))])
  {
    var r := "#/" + Join(segs, '/');
    var ref := Obj([Field("$ref", Str(r))]);
    var fields := [Field("next", ref), Field("type", Str("object"))];
    ReferenceExpands(spec, segs, Obj(fields));
    hide Placed, Join, Deref, LeadsTo;
    RefIs(r);
    assert Resolve(ref, spec, [r]) == Str(r);
    assert "next"[0] == 'n' && "type" != "title" by { assert |"type"| == 4 && |"title"| == 5; }
    assert "$ref"[0] == '$' && "type"[0] == 't';
    assert fields[1..] == [fields[1]] && [fields[1]][1..] == [];
    assert Lookup([fields[1]], "$ref") == Lookup([], "$ref") == None;
    assert RefOf(Obj(fields)).None?;
    TwoMembers(fields, spec, [r]);
  }

  lemma TwoMembers(fields: seq<Field>, spec: Json, stack: seq<string>)
    requires |fields| == 2 && !IsProse(fields[0].key) && !IsProse(fields[1].key)
    ensures ResolveFields(fields, spec, stack) ==
            [Field(fields[0].key, Resolve(fields[0].value, spec, stack)),
             Field(fields[1].key, Resolve(fields[1].value, spec, stack))]
  {
    hide Resolve;
    var x, y := fields[0], fields[1];
    assert fields[1..] == [y] && [y][1..] == [];
    assert ResolveFields([y], spec, stack)
           == [Field(y.key, Resolve(y.value, spec, stack))] + ResolveFields([], spec, stack);
  }

  // --- parameters ---

  /** A parameter counts as it expands, with "required" made a boolean: true where it was
      just that, false in every other case. */
  lemma RequiredIsBool(p: Json, spec: Json, member: string)
    ensures var was, now := Resolve(p, spec, []), NormParam(p, spec);
            && (now.Some? <==> was.Obj? || was.Null?)
            && (now.Some? && member != "required" ==> Get(now.value, member) == Get(was, member))
            && (now.Some? ==>
                 Get(now.value, "required") == Some(Bool(Get(was, "required") == Some(Bool(true)))))
  {
    hide Resolve;
    var was := Resolve(p, spec, []);
    if was.Obj? {
      LookupPut(was.fields, "required", Bool(Required(was)), member);
      LookupPut(was.fields, "required", Bool(Required(was)), "required");
    }
  }

  /** By code points: a proper prefix first, else the first difference decides. */
  ghost predicate Before(a: string, b: string) {
    exists k: nat ::
      && k <= |a| && k <= |b| && a[..k] == b[..k]
      && (k == |a| || (k < |b| && a[k] < b[k]))
  }

  /** By "in", then by "name". */
  ghost predicate Ordered(p: Json, q: Json) {
    if GetStr(p, "in") == GetStr(q, "in") then Before(GetStr(p, "name"), GetStr(q, "name"))
    else Before(GetStr(p, "in"), GetStr(q, "in"))
  }

  lemma {:induction false} LeqReads(a: string, b: string)
    ensures Leq(a, b) <==> Before(a, b)
  {
    if a != "" && b != "" && a[0] == b[0] {
      LeqReads(a[1..], b[1..]);
      if Before(a[1..], b[1..]) {
        var k: nat :| k <= |a[1..]| && k <= |b[1..]| && a[1..][..k] == b[1..][..k]
                      && (k == |a[1..]| || (k < |b[1..]| && a[1..][k] < b[1..][k]));
        assert a[..k + 1] == [a[0]] + a[1..][..k] && b[..k + 1] == [b[0]] + b[1..][..k];
      }
      if Before(a, b) {
        var k: nat :| k <= |a| && k <= |b| && a[..k] == b[..k] && (k == |a| || (k < |b| && a[k] < b[k]));
        assert k > 0 && a[1..][..k - 1] == a[..k][1..] && b[1..][..k - 1] == b[..k][1..];
      }
    } else {
      if a == "" || (b != "" && a[0] < b[0]) { assert a[..0] == b[..0]; }
    }
  }

  lemma {:induction false} InOrder(params: seq<Json>, i: nat, j: nat)
    requires Sorted(params) && i < j < |params|
    ensures Below(PlaceOf(params[i]), PlaceOf(params[j]))
    decreases j
  {
    if i > 0 {
      InOrder(params[1..], i - 1, j - 1);
    } else if j > 1 {
      InOrder(params[1..], 0, j - 1);
      BelowOrders(PlaceOf(params[0]), PlaceOf(params[1]), PlaceOf(params[j]));
    }
  }

  lemma {:induction false} SortPermutes(params: seq<Json>)
    ensures multiset(SortParams(params)) == multiset(params)
  {
    if params != [] {
      SortPermutes(params[1..]);
      InsertPermutes(params[0], SortParams(params[1..]));
      assert params == [params[0]] + params[1..];
    }
  }

  lemma {:induction false} InsertPermutes(x: Json, sorted: seq<Json>)
    ensures multiset(InsertParam(x, sorted)) == multiset(sorted) + multiset{x}
  {
    if sorted != [] {
      InsertPermutes(x, sorted[1..]);
      assert sorted == [sorted[0]] + sorted[1..];
    }
  }

  /** The parameters of the material are all the normalised ones, ordered by "in" and, at one
      "in", by "name". */
  lemma ParamsAreInOrder(params: seq<Json>, spec: Json)
    requires NormEach(params, spec).Some?
    ensures NormParams(params, spec).Some?
    ensures var out := NormParams(params, spec).value;
            && multiset(out) == multiset(NormEach(params, spec).value)
            && forall i, j | 0 <= i < j < |out| ::
                 Ordered(out[i], out[j])
  {
    hide NormEach, Before, Leq;
    var each := NormEach(params, spec).value;
    var out := NormParams(params, spec).value;
    SortKeepsOrderAtEachPlace(each);
    SortPermutes(each);
    forall i, j | 0 <= i < j < |out|
      ensures Ordered(out[i], out[j])
    {
      InOrder(out, i, j);
      LeqReads(GetStr(out[i], "in"), GetStr(out[j], "in"));
      LeqReads(GetStr(out[i], "name"), GetStr(out[j], "name"));
    }
  }

  // --- body and responses ---

  /** The material: the parameters as above; the schema of the body's first media type,
      expanded, or null where none is declared; and each response, expanded whole, under
      its status. */
  lemma MaterialHolds(op: Json, spec: Json, status: string)
    requires Material(op, spec).Some?
    ensures var m := Material(op, spec).value;
            && NormParams(GetArr(op, "parameters"), spec).Some?
            && m.Obj? && |m.fields| == 3
            && m.fields[0] == Field("parameters", Arr(NormParams(GetArr(op, "parameters"), spec).value))
            && m.fields[1].key == "requestBody" && m.fields[2].key == "responses"
            && (forall media: string, schema: Json, more: seq<Field> |
                  Get(Index(op, "requestBody"), "content")
                  == Some(Obj([Field(media, Obj([Field("schema", schema)]))] + more)) ::
                  m.fields[1].value == Resolve(schema, spec, []))
            && (Get(Index(op, "requestBody"), "content").None?
                || !Get(Index(op, "requestBody"), "content").value.Obj? ==>
                  m.fields[1].value == Null)
            && Get(m.fields[2].value, status) ==
               match Get(Index(op, "responses"), status) case Some(x) => Some(Resolve(x, spec, [])) case None => None
  {
    hide Resolve, NormParams, NormResponses;
    StatusesResolve(Statuses(op), spec, status);
    forall media: string, schema: Json, more: seq<Field> |
      Get(Index(op, "requestBody"), "content") == Some(Obj([Field(media, Obj([Field("schema", schema)]))] + more))
      ensures NormBody(Index(op, "requestBody"), spec) == Resolve(schema, spec, [])
    {
      assert Contents(Index(op, "requestBody"))[0] == Field(media, Obj([Field("schema", schema)]));
    }
  }

  lemma {:induction false} StatusesResolve(responses: seq<Field>, spec: Json, status: string)
    ensures Lookup(NormResponses(responses, spec), status) ==
            match Lookup(responses, status) case Some(x) => Some(Resolve(x, spec, [])) case None => None
  {
    hide Resolve;
    if responses != [] {
      StatusesResolve(responses[1..], spec, status);
      assert NormResponses(responses, spec)[1..] == NormResponses(responses[1..], spec);
    }
  }

  // --- the report ---

  lemma {:induction false} JudgedHas(eps: seq<Endpoint>, covered: seq<Field>, v: Verdict, name: string)
    ensures name in Judged(eps, covered, v) <==> exists ep | ep in eps :: ep.name == name && Judge(ep, covered) == v
  {
    if eps != [] {
      JudgedHas(eps[1..], covered, v, name);
      forall ep ensures ep in eps <==> ep == eps[0] || ep in eps[1..] { assert eps == [eps[0]] + eps[1..]; }
    }
  }

  lemma {:induction false} GoneHas(eps: seq<Endpoint>, covered: seq<Field>, name: string)
    ensures name in Gone(eps, covered) <==>
            (exists f | f in covered :: f.key == name) && forall ep | ep in eps :: ep.name != name
  {
    if covered != [] {
      GoneHas(eps, covered[1..], name);
      FindHas(eps, covered[0].key);
      forall f ensures f in covered <==> f == covered[0] || f in covered[1..] {
        assert covered == [covered[0]] + covered[1..];
      }
    }
  }

  lemma {:induction false} FindHas(eps: seq<Endpoint>, name: string)
    ensures Find(eps, name).None? <==> forall ep | ep in eps :: ep.name != name
  {
    if eps != [] {
      FindHas(eps[1..], name);
      forall ep ensures ep in eps <==> ep == eps[0] || ep in eps[1..] { assert eps == [eps[0]] + eps[1..]; }
    }
  }

  /** What the three lists say: new is an endpoint the manifest has no entry for, changed is
      one whose entry holds another "fingerprint" or none, removed is an entry no endpoint
      of the spec goes by. */
  lemma DiffTells(eps: seq<Endpoint>, covered: seq<Field>, name: string)
    ensures name in Judged(eps, covered, Uncovered) <==>
            (exists ep | ep in eps :: ep.name == name) && Lookup(covered, name).None?
    ensures name in Judged(eps, covered, Stale) <==>
            && Lookup(covered, name).Some?
            && exists ep | ep in eps ::
                 ep.name == name && Get(Lookup(covered, name).value, "fingerprint") != Some(Str(ep.fp))
    ensures name in Gone(eps, covered) <==>
            (exists f | f in covered :: f.key == name) && forall ep | ep in eps :: ep.name != name
  {
    hide Judged, Gone;
    JudgedHas(eps, covered, Uncovered, name);
    JudgedHas(eps, covered, Stale, name);
    GoneHas(eps, covered, name);
  }
}
