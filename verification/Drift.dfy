/** The API drift detector's contract shapes: `$ref` expansion over specs that
    may be cyclic, with prose dropped at every level. */
module Drift {
  import opened Options
  import opened Json
  import Text

  const PROSE: set<string> := {"description", "example", "examples", "title"}

  // --- following a reference ---

  function Walk(cur: Json, segs: seq<string>): Option<Json>
    decreases |segs|
  {
    if segs == [] then Some(cur)
    else
      match Get(cur, segs[0])
      case Some(next) => Walk(next, segs[1..])
      case None => None
  }

  /** A local `#/...` pointer into the spec. */
  function Deref(spec: Json, r: string): Option<Json> {
    match Text.StripPrefix(r, "#/")
    case Some(path) => Walk(spec, Text.Split(path, '/'))
    case None => None
  }

  method FollowRef(spec: Json, r: string) returns (def: Option<Json>)
    ensures def == Deref(spec, r)
  {
    var path := Text.StripPrefix(r, "#/");
    if path.None? {
      return None;
    }
    var segs := Text.Split(path.value, '/');
    var cur, i := spec, 0;
    assert segs[0..] == segs;
    while i < |segs|
      invariant 0 <= i <= |segs|
      invariant Walk(cur, segs[i..]) == Walk(spec, segs)
    {
      assert segs[i..][0] == segs[i] && segs[i..][1..] == segs[i + 1..];
      var next := Get(cur, segs[i]);
      if next.None? {
        return None;
      }
      cur := next.value;
      i := i + 1;
    }
    def := Some(cur);
  }

  function RefOf(schema: Json): Option<string> {
    match Get(schema, "$ref")
    case Some(Str(r)) => Some(r)
    case _ => None
  }

  // --- every reference written anywhere in a value ---

  function Refs(v: Json): set<string>
    decreases Size(v), 0
  {
    (match RefOf(v) case Some(r) => {r} case None => {}) +
    (match v
     case Obj(fields) => FieldRefs(fields)
     case Arr(items) => ItemRefs(items)
     case _ => {})
  }

  function FieldRefs(fields: seq<Field>): set<string>
    decreases SizeFields(fields), 1
  {
    if fields == [] then {} else Refs(fields[0].value) + FieldRefs(fields[1..])
  }

  function ItemRefs(items: seq<Json>): set<string>
    decreases SizeItems(items), 1
  {
    if items == [] then {} else Refs(items[0]) + ItemRefs(items[1..])
  }

  lemma {:induction false} LookupRefs(fields: seq<Field>, key: string)
    requires Lookup(fields, key).Some?
    ensures Refs(Lookup(fields, key).value) <= FieldRefs(fields)
  {
    if fields[0].key != key { LookupRefs(fields[1..], key); }
  }

  lemma {:induction false} WalkRefs(cur: Json, segs: seq<string>)
    requires Walk(cur, segs).Some?
    ensures Refs(Walk(cur, segs).value) <= Refs(cur)
    decreases |segs|
  {
    if segs != [] {
      LookupRefs(cur.fields, segs[0]);
      WalkRefs(Get(cur, segs[0]).value, segs[1..]);
    }
  }

  lemma {:induction false} SubsetSize(a: set<string>, b: set<string>)
    requires a <= b
    ensures |a| <= |b|
    ensures a != b ==> |a| < |b|
  {
    if a != {} {
      var x :| x in a;
      SubsetSize(a - {x}, b - {x});
      if a != b {
        var y :| y in b && y !in a;
        assert y in b - {x};
      }
    } else if b != {} {
      assert |b| > 0;
    }
  }

  // --- expansion ---

  /** References that may still be expanded: those not on the stack. */
  ghost function Pending(refs: set<string>, spec: Json, stack: seq<string>): set<string> {
    set r | r in refs + Refs(spec) && r !in stack
  }

  ghost function Budget(refs: set<string>, spec: Json, stack: seq<string>): nat {
    |Pending(refs, spec, stack)|
  }

  lemma BudgetShrinks(small: set<string>, big: set<string>, spec: Json, stack: seq<string>)
    requires small <= big
    ensures Budget(small, spec, stack) <= Budget(big, spec, stack)
  {
    SubsetSize(Pending(small, spec, stack), Pending(big, spec, stack));
  }

  /** Expanding a reference uses it up. */
  lemma BudgetSpent(schema: Json, spec: Json, stack: seq<string>, r: string)
    requires RefOf(schema) == Some(r) && r !in stack && Deref(spec, r).Some?
    ensures Budget(Refs(Deref(spec, r).value), spec, stack + [r]) < Budget(Refs(schema), spec, stack)
  {
    var def := Deref(spec, r).value;
    WalkRefs(spec, Text.Split(Text.StripPrefix(r, "#/").value, '/'));
    var after, before := Pending(Refs(def), spec, stack + [r]), Pending(Refs(schema), spec, stack);
    assert r in before && r !in after;
    SubsetSize(after, before);
  }

  /** A schema with its references expanded and prose dropped; a reference already
      on the stack, or dangling, stays as its name. */
  function Resolve(schema: Json, spec: Json, stack: seq<string>): Json
    decreases Budget(Refs(schema), spec, stack), Size(schema), 0
  {
    match RefOf(schema)
    case Some(r) =>
      if r in stack then Str(r)
      else
        (match Deref(spec, r)
         case None => Str(r)
         case Some(def) => BudgetSpent(schema, spec, stack, r); Resolve(def, spec, stack + [r]))
    case None =>
      match schema
      case Obj(fields) =>
        BudgetShrinks(FieldRefs(fields), Refs(schema), spec, stack);
        Obj(ResolveFields(fields, spec, stack))
      case Arr(items) =>
        BudgetShrinks(ItemRefs(items), Refs(schema), spec, stack);
        Arr(ResolveItems(items, spec, stack))
      case _ => schema
  }

  function ResolveFields(fields: seq<Field>, spec: Json, stack: seq<string>): seq<Field>
    decreases Budget(FieldRefs(fields), spec, stack), SizeFields(fields), 1
  {
    if fields == [] then []
    else
      BudgetShrinks(Refs(fields[0].value), FieldRefs(fields), spec, stack);
      BudgetShrinks(FieldRefs(fields[1..]), FieldRefs(fields), spec, stack);
      (if fields[0].key in PROSE then []
       else [Field(fields[0].key, Resolve(fields[0].value, spec, stack))])
      + ResolveFields(fields[1..], spec, stack)
  }

  function ResolveItems(items: seq<Json>, spec: Json, stack: seq<string>): seq<Json>
    decreases Budget(ItemRefs(items), spec, stack), SizeItems(items), 1
  {
    if items == [] then []
    else
      BudgetShrinks(Refs(items[0]), ItemRefs(items), spec, stack);
      BudgetShrinks(ItemRefs(items[1..]), ItemRefs(items), spec, stack);
      [Resolve(items[0], spec, stack)] + ResolveItems(items[1..], spec, stack)
  }

  // --- the mutable stack ---

  class RefStack {
    var names: seq<string>
  }

  /** The recursion as it runs: one stack, pushed and popped, left as it was found. */
  method Expand(schema: Json, spec: Json, stack: RefStack) returns (out: Json)
    modifies stack
    ensures stack.names == old(stack.names)
    ensures out == Resolve(schema, spec, old(stack.names))
    decreases Budget(Refs(schema), spec, stack.names), Size(schema), 0
  {
    var r := RefOf(schema);
    if r.Some? {
      if r.value in stack.names {
        return Str(r.value);
      }
      var def := FollowRef(spec, r.value);
      if def.None? {
        return Str(r.value);
      }
      BudgetSpent(schema, spec, stack.names, r.value);
      stack.names := stack.names + [r.value];
      out := Expand(def.value, spec, stack);
      stack.names := stack.names[..|stack.names| - 1];
      return;
    }
    match schema
    case Obj(fields) =>
      BudgetShrinks(FieldRefs(fields), Refs(schema), spec, stack.names);
      var fs := ExpandFields(fields, spec, stack);
      out := Obj(fs);
    case Arr(items) =>
      BudgetShrinks(ItemRefs(items), Refs(schema), spec, stack.names);
      var vs := ExpandItems(items, spec, stack);
      out := Arr(vs);
    case _ => out := schema;
  }

  lemma {:induction false} FieldBudget(fields: seq<Field>, i: nat, spec: Json, stack: seq<string>)
    requires i < |fields|
    ensures Refs(fields[i].value) <= FieldRefs(fields)
    ensures Budget(Refs(fields[i].value), spec, stack) <= Budget(FieldRefs(fields), spec, stack)
    ensures Size(fields[i].value) < SizeFields(fields)
  {
    if i > 0 {
      FieldBudget(fields[1..], i - 1, spec, stack);
    }
    BudgetShrinks(Refs(fields[i].value), FieldRefs(fields), spec, stack);
  }

  lemma {:induction false} ItemBudget(items: seq<Json>, i: nat, spec: Json, stack: seq<string>)
    requires i < |items|
    ensures Refs(items[i]) <= ItemRefs(items)
    ensures Budget(Refs(items[i]), spec, stack) <= Budget(ItemRefs(items), spec, stack)
    ensures Size(items[i]) <= SizeItems(items)
  {
    if i > 0 {
      ItemBudget(items[1..], i - 1, spec, stack);
    }
    BudgetShrinks(Refs(items[i]), ItemRefs(items), spec, stack);
  }

  lemma NoneLeft(fields: seq<Field>, items: seq<Json>, spec: Json, stack: seq<string>)
    ensures fields[0..] == fields && items[0..] == items
    ensures ResolveFields(fields[|fields|..], spec, stack) == [] && ResolveItems(items[|items|..], spec, stack) == []
  {
  }

  lemma FieldStep(fields: seq<Field>, i: nat, spec: Json, stack: seq<string>)
    requires i < |fields|
    ensures ResolveFields(fields[i..], spec, stack) ==
            (if fields[i].key in PROSE then []
             else [Field(fields[i].key, Resolve(fields[i].value, spec, stack))])
            + ResolveFields(fields[i + 1..], spec, stack)
  {
    assert fields[i..][0] == fields[i] && fields[i..][1..] == fields[i + 1..];
  }

  lemma ItemStep(items: seq<Json>, i: nat, spec: Json, stack: seq<string>)
    requires i < |items|
    ensures ResolveItems(items[i..], spec, stack) ==
            [Resolve(items[i], spec, stack)] + ResolveItems(items[i + 1..], spec, stack)
  {
    assert items[i..][0] == items[i] && items[i..][1..] == items[i + 1..];
  }

  method ExpandFields(fields: seq<Field>, spec: Json, stack: RefStack) returns (out: seq<Field>)
    modifies stack
    ensures stack.names == old(stack.names)
    ensures out == ResolveFields(fields, spec, old(stack.names))
    decreases Budget(FieldRefs(fields), spec, stack.names), SizeFields(fields), 1
  {
    hide Resolve, ResolveFields, Budget, Refs, FieldRefs, Size, SizeFields;
    out := [];
    var i := 0;
    NoneLeft(fields, [], spec, stack.names);
    while i < |fields|
      invariant 0 <= i <= |fields| && stack.names == old(stack.names)
      invariant out + ResolveFields(fields[i..], spec, stack.names) == ResolveFields(fields, spec, stack.names)
    {
      FieldStep(fields, i, spec, stack.names);
      if fields[i].key !in PROSE {
        FieldBudget(fields, i, spec, stack.names);
        var v := Expand(fields[i].value, spec, stack);
        out := out + [Field(fields[i].key, v)];
      }
      i := i + 1;
    }
  }

  method ExpandItems(items: seq<Json>, spec: Json, stack: RefStack) returns (out: seq<Json>)
    modifies stack
    ensures stack.names == old(stack.names)
    ensures out == ResolveItems(items, spec, old(stack.names))
    decreases Budget(ItemRefs(items), spec, stack.names), SizeItems(items), 1
  {
    hide Resolve, ResolveItems, Budget, Refs, ItemRefs, Size, SizeItems;
    out := [];
    var i := 0;
    NoneLeft([], items, spec, stack.names);
    while i < |items|
      invariant 0 <= i <= |items| && stack.names == old(stack.names)
      invariant out + ResolveItems(items[i..], spec, stack.names) == ResolveItems(items, spec, stack.names)
    {
      ItemStep(items, i, spec, stack.names);
      ItemBudget(items, i, spec, stack.names);
      var v := Expand(items[i], spec, stack);
      out := out + [v];
      i := i + 1;
    }
  }

  // --- what expansion leaves behind ---

  /** `ok` of every member key at any depth. */
  predicate AllMembers(v: Json, ok: (string, Json) -> bool)
    decreases Size(v), 0
  {
    match v
    case Obj(fields) => AllFields(fields, ok)
    case Arr(items) => AllItems(items, ok)
    case _ => true
  }

  predicate AllFields(fields: seq<Field>, ok: (string, Json) -> bool)
    decreases SizeFields(fields), 1
  {
    fields == [] ||
    (ok(fields[0].key, fields[0].value) && AllMembers(fields[0].value, ok) && AllFields(fields[1..], ok))
  }

  predicate AllItems(items: seq<Json>, ok: (string, Json) -> bool)
    decreases SizeItems(items), 1
  {
    items == [] || (AllMembers(items[0], ok) && AllItems(items[1..], ok))
  }

  const NAMED: (string, Json) -> bool := (k: string, v: Json) => k == "$ref" ==> v.Str?
  const EXPANDED: (string, Json) -> bool := (k: string, v: Json) => k != "$ref" && k !in PROSE
  const PROSELESS: (string, Json) -> bool := (k: string, v: Json) => k !in PROSE

  lemma {:induction false} LookupMembers(fields: seq<Field>, key: string, ok: (string, Json) -> bool)
    requires AllFields(fields, ok) && Lookup(fields, key).Some?
    ensures AllMembers(Lookup(fields, key).value, ok) && ok(key, Lookup(fields, key).value)
  {
    if fields[0].key != key { LookupMembers(fields[1..], key, ok); }
  }

  lemma {:induction false} WalkMembers(cur: Json, segs: seq<string>, ok: (string, Json) -> bool)
    requires AllMembers(cur, ok) && Walk(cur, segs).Some?
    ensures AllMembers(Walk(cur, segs).value, ok)
    decreases |segs|
  {
    if segs != [] {
      LookupMembers(cur.fields, segs[0], ok);
      WalkMembers(Get(cur, segs[0]).value, segs[1..], ok);
    }
  }

  /** A field list whose `$ref`s are all names but which is not a reference has none. */
  lemma {:induction false} NoRefMember(fields: seq<Field>)
    requires AllFields(fields, NAMED) && Lookup(fields, "$ref").None?
    ensures forall i :: 0 <= i < |fields| ==> fields[i].key != "$ref"
  {
    if fields != [] { NoRefMember(fields[1..]); }
  }

  /** Expansion leaves no prose key at any depth, whatever the spec. */
  lemma {:induction false} NoProseLeft(schema: Json, spec: Json, stack: seq<string>)
    ensures AllMembers(Resolve(schema, spec, stack), PROSELESS)
    decreases Budget(Refs(schema), spec, stack), Size(schema), 0
  {
    match RefOf(schema)
    case Some(r) =>
      if r !in stack && Deref(spec, r).Some? {
        BudgetSpent(schema, spec, stack, r);
        NoProseLeft(Deref(spec, r).value, spec, stack + [r]);
      }
    case None =>
      match schema
      case Obj(fields) =>
        BudgetShrinks(FieldRefs(fields), Refs(schema), spec, stack);
        NoProseInFields(fields, spec, stack);
      case Arr(items) =>
        BudgetShrinks(ItemRefs(items), Refs(schema), spec, stack);
        NoProseInItems(items, spec, stack);
      case _ =>
  }

  lemma {:induction false} NoProseInFields(fields: seq<Field>, spec: Json, stack: seq<string>)
    ensures AllFields(ResolveFields(fields, spec, stack), PROSELESS)
    decreases Budget(FieldRefs(fields), spec, stack), SizeFields(fields), 1
  {
    if fields != [] {
      BudgetShrinks(Refs(fields[0].value), FieldRefs(fields), spec, stack);
      BudgetShrinks(FieldRefs(fields[1..]), FieldRefs(fields), spec, stack);
      NoProseLeft(fields[0].value, spec, stack);
      NoProseInFields(fields[1..], spec, stack);
      var rest := ResolveFields(fields[1..], spec, stack);
      if fields[0].key !in PROSE {
        assert ResolveFields(fields, spec, stack)[1..] == rest;
      } else {
        assert ResolveFields(fields, spec, stack) == rest;
      }
    }
  }

  lemma {:induction false} NoProseInItems(items: seq<Json>, spec: Json, stack: seq<string>)
    ensures AllItems(ResolveItems(items, spec, stack), PROSELESS)
    decreases Budget(ItemRefs(items), spec, stack), SizeItems(items), 1
  {
    if items != [] {
      BudgetShrinks(Refs(items[0]), ItemRefs(items), spec, stack);
      BudgetShrinks(ItemRefs(items[1..]), ItemRefs(items), spec, stack);
      NoProseLeft(items[0], spec, stack);
      NoProseInItems(items[1..], spec, stack);
      assert ResolveItems(items, spec, stack)[1..] == ResolveItems(items[1..], spec, stack);
    }
  }

  /** When every `$ref` value is a string, expansion leaves neither a reference
      object nor a prose key at any depth, cyclic specs included. */
  lemma {:induction false} NoRefsLeft(schema: Json, spec: Json, stack: seq<string>)
    requires AllMembers(schema, NAMED) && AllMembers(spec, NAMED)
    ensures AllMembers(Resolve(schema, spec, stack), EXPANDED)
    decreases Budget(Refs(schema), spec, stack), Size(schema), 0
  {
    match RefOf(schema)
    case Some(r) =>
      if r !in stack && Deref(spec, r).Some? {
        BudgetSpent(schema, spec, stack, r);
        WalkMembers(spec, Text.Split(Text.StripPrefix(r, "#/").value, '/'), NAMED);
        NoRefsLeft(Deref(spec, r).value, spec, stack + [r]);
      }
    case None =>
      match schema
      case Obj(fields) =>
        BudgetShrinks(FieldRefs(fields), Refs(schema), spec, stack);
        if Lookup(fields, "$ref").Some? { LookupMembers(fields, "$ref", NAMED); }
        NoRefMember(fields);
        NoRefsInFields(fields, spec, stack);
      case Arr(items) =>
        BudgetShrinks(ItemRefs(items), Refs(schema), spec, stack);
        NoRefsInItems(items, spec, stack);
      case _ =>
  }

  lemma {:induction false} NoRefsInFields(fields: seq<Field>, spec: Json, stack: seq<string>)
    requires AllFields(fields, NAMED) && AllMembers(spec, NAMED)
    requires forall i :: 0 <= i < |fields| ==> fields[i].key != "$ref"
    ensures AllFields(ResolveFields(fields, spec, stack), EXPANDED)
    decreases Budget(FieldRefs(fields), spec, stack), SizeFields(fields), 1
  {
    if fields != [] {
      BudgetShrinks(Refs(fields[0].value), FieldRefs(fields), spec, stack);
      BudgetShrinks(FieldRefs(fields[1..]), FieldRefs(fields), spec, stack);
      NoRefsLeft(fields[0].value, spec, stack);
      NoRefsInFields(fields[1..], spec, stack);
      var rest := ResolveFields(fields[1..], spec, stack);
      if fields[0].key !in PROSE {
        assert ResolveFields(fields, spec, stack)[1..] == rest;
      } else {
        assert ResolveFields(fields, spec, stack) == rest;
      }
    }
  }

  lemma {:induction false} NoRefsInItems(items: seq<Json>, spec: Json, stack: seq<string>)
    requires AllItems(items, NAMED) && AllMembers(spec, NAMED)
    ensures AllItems(ResolveItems(items, spec, stack), EXPANDED)
    decreases Budget(ItemRefs(items), spec, stack), SizeItems(items), 1
  {
    if items != [] {
      BudgetShrinks(Refs(items[0]), ItemRefs(items), spec, stack);
      BudgetShrinks(ItemRefs(items[1..]), ItemRefs(items), spec, stack);
      NoRefsLeft(items[0], spec, stack);
      NoRefsInItems(items[1..], spec, stack);
      assert ResolveItems(items, spec, stack)[1..] == ResolveItems(items[1..], spec, stack);
    }
  }

  /** The condition is needed: a `$ref` that is itself an object resolves to a
      reference object. */
  lemma ObjectRefSurvives()
    ensures var schema := Obj([Field("$ref", Obj([Field("$ref", Str("x"))]))]);
            RefOf(Resolve(schema, Null, [])) == Some("x")
  {
    var inner := Obj([Field("$ref", Str("x"))]);
    var schema := Obj([Field("$ref", inner)]);
    assert "x"[0] != "#/"[0];
    assert Resolve(inner, Null, []) == Str("x");
    assert ResolveFields(schema.fields, Null, []) == [Field("$ref", Str("x"))] + ResolveFields(schema.fields[1..], Null, []);
  }

  // --- prose is not contract ---

  /** A value with every prose key deleted at every level. */
  function Strip(v: Json): Json
    decreases Size(v), 0
  {
    match v
    case Obj(fields) => Obj(StripFields(fields))
    case Arr(items) => Arr(StripItems(items))
    case _ => v
  }

  function StripFields(fields: seq<Field>): seq<Field>
    decreases SizeFields(fields), 1
  {
    if fields == [] then []
    else (if fields[0].key in PROSE then [] else [Field(fields[0].key, Strip(fields[0].value))]) + StripFields(fields[1..])
  }

  function StripItems(items: seq<Json>): seq<Json>
    decreases SizeItems(items), 1
  {
    if items == [] then [] else [Strip(items[0])] + StripItems(items[1..])
  }

  /** No segment of the reference's path is a prose name. */
  predicate ProseFree(r: string) {
    match Text.StripPrefix(r, "#/")
    case Some(path) => forall seg | seg in Text.Split(path, '/') :: seg !in PROSE
    case None => true
  }

  function StripSome(v: Option<Json>): Option<Json> {
    match v case Some(x) => Some(Strip(x)) case None => None
  }

  lemma {:induction false} LookupStripped(fields: seq<Field>, key: string)
    requires key !in PROSE
    ensures Lookup(StripFields(fields), key) == StripSome(Lookup(fields, key))
  {
    if fields != [] {
      LookupStripped(fields[1..], key);
      if fields[0].key in PROSE {
        assert StripFields(fields) == StripFields(fields[1..]);
      } else {
        assert StripFields(fields)[1..] == StripFields(fields[1..]);
      }
    }
  }

  lemma {:induction false} WalkStripped(cur: Json, segs: seq<string>)
    requires forall seg | seg in segs :: seg !in PROSE
    ensures Walk(Strip(cur), segs) == StripSome(Walk(cur, segs))
    decreases |segs|
  {
    if segs != [] {
      assert segs[0] in segs;
      if cur.Obj? {
        LookupStripped(cur.fields, segs[0]);
        if Lookup(cur.fields, segs[0]).Some? {
          WalkStripped(Get(cur, segs[0]).value, segs[1..]);
        }
      }
    }
  }

  lemma RefStripped(v: Json)
    ensures RefOf(Strip(v)) == RefOf(v)
  {
    assert "$ref" !in PROSE by {
      assert |"$ref"| != |"description"| && |"$ref"| != |"example"| && |"$ref"| != |"examples"| && |"$ref"| != |"title"|;
    }
    if v.Obj? { LookupStripped(v.fields, "$ref"); }
  }

  /** References that survive deleting the prose never lead through a prose name. */
  ghost predicate Followable(refs: set<string>, spec: Json) {
    forall r :: r in refs + Refs(Strip(spec)) ==> ProseFree(r)
  }

  lemma {:induction false} WalkRefsStripped(spec: Json, r: string)
    requires Deref(spec, r).Some? && ProseFree(r)
    ensures Deref(Strip(spec), r) == Some(Strip(Deref(spec, r).value))
    ensures Refs(Strip(Deref(spec, r).value)) <= Refs(Strip(spec))
  {
    var segs := Text.Split(Text.StripPrefix(r, "#/").value, '/');
    WalkStripped(spec, segs);
    WalkRefs(Strip(spec), segs);
  }

  /** Expansion sees only what is left when the prose is deleted -- through cyclic
      references too. */
  lemma {:induction false} ResolveIgnoresProse(schema: Json, spec: Json, stack: seq<string>)
    requires Followable(Refs(Strip(schema)), spec)
    ensures Resolve(schema, spec, stack) == Resolve(Strip(schema), Strip(spec), stack)
    decreases Budget(Refs(schema), spec, stack), Size(schema), 0
  {
    RefStripped(schema);
    match RefOf(schema)
    case Some(r) =>
      assert r in Refs(Strip(schema));
      assert ProseFree(r);
      if r !in stack {
        if Deref(spec, r).Some? {
          var def := Deref(spec, r).value;
          BudgetSpent(schema, spec, stack, r);
          WalkRefsStripped(spec, r);
          ResolveIgnoresProse(def, spec, stack + [r]);
        } else if Text.StripPrefix(r, "#/").Some? {
          WalkStripped(spec, Text.Split(Text.StripPrefix(r, "#/").value, '/'));
        }
      }
    case None =>
      match schema
      case Obj(fields) =>
        BudgetShrinks(FieldRefs(fields), Refs(schema), spec, stack);
        FieldsIgnoreProse(fields, spec, stack);
      case Arr(items) =>
        BudgetShrinks(ItemRefs(items), Refs(schema), spec, stack);
        ItemsIgnoreProse(items, spec, stack);
      case _ =>
  }

  lemma {:induction false} FieldsIgnoreProse(fields: seq<Field>, spec: Json, stack: seq<string>)
    requires Followable(FieldRefs(StripFields(fields)), spec)
    ensures ResolveFields(fields, spec, stack) == ResolveFields(StripFields(fields), Strip(spec), stack)
    decreases Budget(FieldRefs(fields), spec, stack), SizeFields(fields), 1
  {
    if fields != [] {
      BudgetShrinks(Refs(fields[0].value), FieldRefs(fields), spec, stack);
      BudgetShrinks(FieldRefs(fields[1..]), FieldRefs(fields), spec, stack);
      var rest := StripFields(fields[1..]);
      if fields[0].key in PROSE {
        assert StripFields(fields) == rest;
        FieldsIgnoreProse(fields[1..], spec, stack);
      } else {
        assert StripFields(fields)[1..] == rest;
        FieldsIgnoreProse(fields[1..], spec, stack);
        ResolveIgnoresProse(fields[0].value, spec, stack);
      }
    }
  }

  lemma {:induction false} ItemsIgnoreProse(items: seq<Json>, spec: Json, stack: seq<string>)
    requires Followable(ItemRefs(StripItems(items)), spec)
    ensures ResolveItems(items, spec, stack) == ResolveItems(StripItems(items), Strip(spec), stack)
    decreases Budget(ItemRefs(items), spec, stack), SizeItems(items), 1
  {
    if items != [] {
      BudgetShrinks(Refs(items[0]), ItemRefs(items), spec, stack);
      BudgetShrinks(ItemRefs(items[1..]), ItemRefs(items), spec, stack);
      assert StripItems(items)[1..] == StripItems(items[1..]);
      ResolveIgnoresProse(items[0], spec, stack);
      ItemsIgnoreProse(items[1..], spec, stack);
    }
  }

  /** Two schemas in two specs that differ in prose alone expand to the same shape. */
  lemma ProseChurnIsNotDrift(a: Json, specA: Json, b: Json, specB: Json)
    requires Strip(a) == Strip(b) && Strip(specA) == Strip(specB)
    requires Followable(Refs(Strip(a)), specA)
    ensures Resolve(a, specA, []) == Resolve(b, specB, [])
  {
    ResolveIgnoresProse(a, specA, []);
    ResolveIgnoresProse(b, specB, []);
  }

  /** The other side of that filter: a schema property that happens to be called
      `title` is dropped with the prose, so changing its type is not seen. */
  lemma PropertyNamedTitleIsInvisible(was: Json, now: Json)
    ensures var schema := (t: Json) => Obj([Field("properties", Obj([Field("title", t)]))]);
            Resolve(schema(was), Null, []) == Resolve(schema(now), Null, [])
  {
    var schema := (t: Json) => Obj([Field("properties", Obj([Field("title", t)]))]);
    forall t: Json ensures Strip(schema(t)) == Obj([Field("properties", Obj([]))]) {
      var inner := [Field("title", t)];
      assert StripFields(inner) == StripFields(inner[1..]) == [];
      var outer := [Field("properties", Obj(inner))];
      assert "properties" !in PROSE by {
        assert "properties"[0] == 'p' && "description"[0] == 'd' && "title"[0] == 't';
        assert "example"[0] == 'e' && "examples"[0] == 'e';
      }
      assert StripFields(outer) == [Field("properties", Strip(Obj(inner)))] + StripFields(outer[1..]);
    }
    var bare := Obj([Field("properties", Obj([]))]);
    assert Refs(Obj([])) == {};
    assert RefOf(bare) == None by { assert |"properties"| != |"$ref"|; }
    assert FieldRefs(bare.fields) == Refs(bare.fields[0].value) + FieldRefs(bare.fields[1..]);
    assert Refs(bare) == {};
    ProseChurnIsNotDrift(schema(was), Null, schema(now), Null);
  }
}
