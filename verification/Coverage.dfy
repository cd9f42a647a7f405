/** What the drift detector fingerprints of one endpoint -- normalised parameters,
    body and responses -- and the comparison of fingerprints with the manifest. */
module Coverage {
  import opened Options
  import opened Json
  import opened Drift
  import opened Text

  // --- the order of parameters ---

  datatype Place = Place(loc: string, name: string)

  predicate Below(p: Place, q: Place) {
    if p.loc == q.loc then Leq(p.name, q.name) else Leq(p.loc, q.loc)
  }

  lemma BelowOrders(p: Place, q: Place, r: Place)
    ensures Below(p, q) || Below(q, p)
    ensures Below(p, q) && Below(q, p) ==> p == q
    ensures Below(p, q) && Below(q, r) ==> Below(p, r)
  {
    LeqOrders(p.loc, q.loc);
    LeqOrders(p.name, q.name);
    if Below(p, q) && Below(q, r) {
      LeqOrders(q.loc, r.loc);
      if p.loc == q.loc == r.loc {
        LeqChains(p.name, q.name, r.name);
      } else {
        LeqOrders(p.loc, p.loc);
        LeqChains(p.loc, q.loc, r.loc);
      }
    }
  }

  // --- parameters ---

  /** `map.insert(key, value)` on key-ordered members. */
  function Put(fields: seq<Field>, key: string, value: Json): seq<Field> {
    if fields == [] then [Field(key, value)]
    else if fields[0].key == key then [Field(key, value)] + fields[1..]
    else if Leq(key, fields[0].key) then [Field(key, value)] + fields
    else [fields[0]] + Put(fields[1..], key, value)
  }

  function Required(o: Json): bool {
    match Get(o, "required") case Some(Bool(b)) => b case _ => false
  }

  /** `o["required"] = ...` turns null into an object and panics (None) on any
      other value that is not one. */
  function NormParam(p: Json, spec: Json): Option<Json> {
    var o := Resolve(p, spec, []);
    match o
    case Obj(fields) => Some(Obj(Put(fields, "required", Bool(Required(o)))))
    case Null => Some(Obj([Field("required", Bool(false))]))
    case _ => None
  }

  function PlaceOf(param: Json): Place {
    Place(GetStr(param, "in"), GetStr(param, "name"))
  }

  function NormEach(params: seq<Json>, spec: Json): Option<seq<Json>> {
    if params == [] then Some([])
    else
      match (NormParam(params[0], spec), NormEach(params[1..], spec))
      case (Some(o), Some(rest)) => Some([o] + rest)
      case _ => None
  }

  function InsertParam(x: Json, sorted: seq<Json>): seq<Json> {
    if sorted == [] || Below(PlaceOf(x), PlaceOf(sorted[0])) then [x] + sorted
    else [sorted[0]] + InsertParam(x, sorted[1..])
  }

  /** The stable sort by (in, name). */
  function SortParams(params: seq<Json>): seq<Json> {
    if params == [] then [] else InsertParam(params[0], SortParams(params[1..]))
  }

  function NormParams(params: seq<Json>, spec: Json): Option<seq<Json>> {
    match NormEach(params, spec)
    case Some(out) => Some(SortParams(out))
    case None => None
  }

  /** The parameters at one (in, name), in the order given. */
  function At(params: seq<Json>, place: Place): seq<Json> {
    if params == [] then []
    else if PlaceOf(params[0]) == place then [params[0]] + At(params[1..], place)
    else At(params[1..], place)
  }

  predicate Sorted(params: seq<Json>) {
    |params| < 2 || (Below(PlaceOf(params[0]), PlaceOf(params[1])) && Sorted(params[1..]))
  }

  lemma {:induction false} Inserted(x: Json, sorted: seq<Json>)
    requires Sorted(sorted)
    ensures Sorted(InsertParam(x, sorted))
    ensures sorted != [] ==> InsertParam(x, sorted)[0] in [x, sorted[0]]
    ensures forall p :: At(InsertParam(x, sorted), p) == At([x] + sorted, p)
  {
    if sorted == [] || Below(PlaceOf(x), PlaceOf(sorted[0])) {
      assert ([x] + sorted)[1..] == sorted;
    } else {
      BelowOrders(PlaceOf(x), PlaceOf(sorted[0]), PlaceOf(x));
      Inserted(x, sorted[1..]);
      var rest := InsertParam(x, sorted[1..]);
      assert InsertParam(x, sorted)[1..] == rest;
      assert ([x] + sorted)[1..] == sorted && ([x] + sorted[1..])[1..] == sorted[1..];
    }
  }

  lemma {:induction false} SortKeepsOrderAtEachPlace(params: seq<Json>)
    ensures Sorted(SortParams(params))
    ensures forall p :: At(SortParams(params), p) == At(params, p)
  {
    if params != [] {
      SortKeepsOrderAtEachPlace(params[1..]);
      var rest := SortParams(params[1..]);
      Inserted(params[0], rest);
      assert ([params[0]] + rest)[1..] == rest;
    }
  }

  lemma {:induction false} AtFirst(params: seq<Json>, place: Place)
    requires Sorted(params) && At(params, place) != []
    ensures params != [] && Below(PlaceOf(params[0]), place)
  {
    BelowOrders(place, place, place);
    if PlaceOf(params[0]) != place {
      AtFirst(params[1..], place);
      BelowOrders(PlaceOf(params[0]), PlaceOf(params[1]), place);
    }
  }

  ghost predicate SameAtEachPlace(a: seq<Json>, b: seq<Json>) {
    forall p :: At(a, p) == At(b, p)
  }

  /** A sorted list is its per-place sublists. */
  lemma {:induction false} SortedByPlaces(a: seq<Json>, b: seq<Json>)
    requires Sorted(a) && Sorted(b) && SameAtEachPlace(a, b)
    ensures a == b
  {
    if a != [] { assert At(a, PlaceOf(a[0])) != []; }
    if b != [] { assert At(b, PlaceOf(b[0])) != []; }
    if a != [] && b != [] {
      var p, q := PlaceOf(a[0]), PlaceOf(b[0]);
      AtFirst(b, p);
      AtFirst(a, q);
      BelowOrders(p, q, p);
      assert At(a, p)[0] == At(b, p)[0];
      forall r ensures At(a[1..], r) == At(b[1..], r) {
        assert At(a, r) == At(b, r);
        if r == p {
          assert At(a[1..], r) == At(a, r)[1..] && At(b[1..], r) == At(b, r)[1..];
        }
      }
      SortedByPlaces(a[1..], b[1..]);
      assert a == [a[0]] + a[1..] == [b[0]] + b[1..] == b;
    }
  }

  lemma SortsAgreeWhenPlacesDo(x: seq<Json>, y: seq<Json>)
    ensures SortParams(x) == SortParams(y) <==> SameAtEachPlace(x, y)
  {
    hide At, SortParams, PlaceOf;
    SortKeepsOrderAtEachPlace(x);
    SortKeepsOrderAtEachPlace(y);
    if SortParams(x) == SortParams(y) {
      forall p ensures At(x, p) == At(y, p) {
        assert At(SortParams(x), p) == At(SortParams(y), p);
      }
    }
    if SameAtEachPlace(x, y) {
      forall p ensures At(SortParams(x), p) == At(SortParams(y), p) {
        assert At(x, p) == At(y, p);
      }
      SortedByPlaces(SortParams(x), SortParams(y));
    }
  }

  /** Exactly when two parameter lists normalise alike: at each (in, name) they
      resolve to the same parameters in the same order. */
  lemma ParamsAgreeWhenPlacesDo(a: seq<Json>, b: seq<Json>, spec: Json)
    requires NormEach(a, spec).Some? && NormEach(b, spec).Some?
    ensures NormParams(a, spec) == NormParams(b, spec) <==>
            SameAtEachPlace(NormEach(a, spec).value, NormEach(b, spec).value)
  {
    hide At, SortParams, NormEach;
    SortsAgreeWhenPlacesDo(NormEach(a, spec).value, NormEach(b, spec).value);
  }

  predicate DistinctPlaces(params: seq<Json>) {
    forall i, j :: 0 <= i < j < |params| ==> PlaceOf(params[i]) != PlaceOf(params[j])
  }

  lemma {:induction false} AtOne(params: seq<Json>, x: Json)
    requires x in params && DistinctPlaces(params)
    ensures At(params, PlaceOf(x)) == [x]
  {
    if params[0] == x {
      if At(params[1..], PlaceOf(x)) != [] { AtSome(params[1..], PlaceOf(x)); }
    } else {
      var i :| 0 <= i < |params| && params[i] == x;
      assert params[1..][i - 1] == x;
      AtOne(params[1..], x);
    }
  }

  lemma {:induction false} AtSome(params: seq<Json>, place: Place)
    requires At(params, place) != []
    ensures exists i :: 0 <= i < |params| && PlaceOf(params[i]) == place
  {
    if PlaceOf(params[0]) != place {
      AtSome(params[1..], place);
      var i :| 0 <= i < |params[1..]| && PlaceOf(params[1..][i]) == place;
      assert PlaceOf(params[i + 1]) == place;
    }
  }

  lemma {:induction false} NormEachAt(params: seq<Json>, spec: Json)
    requires NormEach(params, spec).Some?
    ensures var out := NormEach(params, spec).value;
            |out| == |params| && forall i :: 0 <= i < |params| ==> NormParam(params[i], spec) == Some(out[i])
  {
    if params != [] { NormEachAt(params[1..], spec); }
  }

  /** Reordering parameters at distinct places is not drift. */
  lemma PermutingParamsIsNotDrift(a: seq<Json>, b: seq<Json>, spec: Json)
    requires multiset(a) == multiset(b) && NormEach(a, spec).Some? && DistinctPlaces(NormEach(a, spec).value)
    ensures NormEach(b, spec).Some? && NormParams(a, spec) == NormParams(b, spec)
  {
    PermutedPlaces(a, b, spec);
    NormEachAt(a, spec);
    NormEachAt(b, spec);
    var x, y := NormEach(a, spec).value, NormEach(b, spec).value;
    forall p ensures At(x, p) == At(y, p) {
      if At(x, p) != [] { SharedPlace(a, b, spec, p); }
      if At(y, p) != [] { SharedPlace(b, a, spec, p); }
    }
    ParamsAgreeWhenPlacesDo(a, b, spec);
  }

  /** What the list normalises to and where, does not depend on the order. */
  lemma PermutedPlaces(a: seq<Json>, b: seq<Json>, spec: Json)
    requires multiset(a) == multiset(b) && NormEach(a, spec).Some? && DistinctPlaces(NormEach(a, spec).value)
    ensures NormEach(b, spec).Some? && DistinctPlaces(NormEach(b, spec).value)
  {
    hide NormEach, NormParam, PlaceOf;
    NormEachAt(a, spec);
    forall i | 0 <= i < |b| ensures NormParam(b[i], spec).Some? {
      assert b[i] in multiset(a);
      var j :| 0 <= j < |a| && a[j] == b[i];
    }
    NormEachOf(b, spec);
    NormEachAt(b, spec);
    var x, y := NormEach(a, spec).value, NormEach(b, spec).value;
    forall i, j | 0 <= i < j < |y| ensures PlaceOf(y[i]) != PlaceOf(y[j]) {
      Permuted(b, a, i, j);
      var u, v :| 0 <= u < |a| && 0 <= v < |a| && u != v && a[u] == b[i] && a[v] == b[j];
      assert x[u] == y[i] && x[v] == y[j];
    }
  }

  lemma {:induction false} NormEachOf(params: seq<Json>, spec: Json)
    requires forall i :: 0 <= i < |params| ==> NormParam(params[i], spec).Some?
    ensures NormEach(params, spec).Some?
  {
    if params != [] {
      assert NormParam(params[0], spec).Some?;
      NormEachOf(params[1..], spec);
    }
  }

  /** Two places of one list are two places of any reordering of it. */
  lemma Permuted(b: seq<Json>, a: seq<Json>, i: nat, j: nat)
    requires multiset(a) == multiset(b) && i < j < |b|
    ensures exists u, v :: 0 <= u < |a| && 0 <= v < |a| && u != v && a[u] == b[i] && a[v] == b[j]
  {
    assert b[i] in multiset(a) && b[j] in multiset(a);
    var u :| 0 <= u < |a| && a[u] == b[i];
    if b[j] == b[i] {
      SplitAt(b, i);
      SplitAt(a, u);
      var rest, others := b[..i] + b[i + 1..], a[..u] + a[u + 1..];
      Cancel(multiset(rest), multiset(others), b[i]);
      assert rest[j - 1] == b[j];
      assert b[j] in rest;
      assert b[j] in multiset(others);
      var w :| 0 <= w < |others| && others[w] == b[j];
      var v := if w < u then w else w + 1;
      assert a[v] == b[j] && v != u;
    } else {
      var v :| 0 <= v < |a| && a[v] == b[j];
    }
  }

  lemma Cancel(m: multiset<Json>, n: multiset<Json>, x: Json)
    requires m + multiset{x} == n + multiset{x}
    ensures m == n
  {
    assert m == (m + multiset{x}) - multiset{x};
    assert n == (n + multiset{x}) - multiset{x};
  }

  lemma SplitAt(s: seq<Json>, i: nat)
    requires i < |s|
    ensures multiset(s) == multiset(s[..i] + s[i + 1..]) + multiset{s[i]}
  {
    assert s == s[..i] + [s[i]] + s[i + 1..];
  }

  lemma SharedPlace(a: seq<Json>, b: seq<Json>, spec: Json, place: Place)
    requires multiset(a) == multiset(b)
    requires NormEach(a, spec).Some? && NormEach(b, spec).Some?
    requires DistinctPlaces(NormEach(a, spec).value) && DistinctPlaces(NormEach(b, spec).value)
    requires At(NormEach(a, spec).value, place) != []
    ensures At(NormEach(a, spec).value, place) == At(NormEach(b, spec).value, place)
  {
    NormEachAt(a, spec);
    NormEachAt(b, spec);
    var x, y := NormEach(a, spec).value, NormEach(b, spec).value;
    AtSome(x, place);
    var i :| 0 <= i < |x| && PlaceOf(x[i]) == place;
    assert a[i] in multiset(a);
    assert a[i] in multiset(b);
    var j :| 0 <= j < |b| && b[j] == a[i];
    assert y[j] == x[i];
    AtOne(x, x[i]);
    AtOne(y, y[j]);
  }

  // --- body, responses, and the material of the fingerprint ---

  function Contents(body: Json): seq<Field> {
    match Get(body, "content") case Some(Obj(fields)) => fields case _ => []
  }

  function NormBody(body: Json, spec: Json): Json {
    var content := Contents(body);
    if content == [] then Null else Resolve(Index(content[0].value, "schema"), spec, [])
  }

  function Statuses(op: Json): seq<Field> {
    match Get(op, "responses") case Some(Obj(fields)) => fields case _ => []
  }

  function NormResponses(responses: seq<Field>, spec: Json): seq<Field> {
    if responses == [] then []
    else [Field(responses[0].key, Resolve(responses[0].value, spec, []))] + NormResponses(responses[1..], spec)
  }

  /** The value whose canonical text is hashed; None where the source panics. */
  function Material(op: Json, spec: Json): Option<Json> {
    match NormParams(GetArr(op, "parameters"), spec)
    case None => None
    case Some(params) =>
      Some(Obj([
        Field("parameters", Arr(params)),
        Field("requestBody", NormBody(Index(op, "requestBody"), spec)),
        Field("responses", Obj(NormResponses(Statuses(op), spec)))]))
  }

  /** Status codes and media types are member names too, but not filtered as prose. */
  predicate Plain(fields: seq<Field>) {
    forall f | f in fields :: f.key !in PROSE
  }

  predicate PlainEndpoint(op: Json) {
    Plain(Statuses(op)) && Plain(Contents(Index(op, "requestBody")))
  }

  lemma NotProse()
    ensures "parameters" !in PROSE && "requestBody" !in PROSE && "responses" !in PROSE
    ensures "content" !in PROSE && "schema" !in PROSE
  {
    assert forall p | p in PROSE :: p[0] == 'd' || p[0] == 'e' || p[0] == 't';
    assert "parameters"[0] == 'p' && "requestBody"[0] == 'r' && "responses"[0] == 'r';
    assert "content"[0] == 'c' && "schema"[0] == 's';
  }

  lemma GetStripped(v: Json, key: string)
    requires key !in PROSE
    ensures Get(Strip(v), key) == StripSome(Get(v, key))
    ensures Index(Strip(v), key) == Strip(Index(v, key))
    ensures Refs(Index(v, key)) <= Refs(v)
  {
    if v.Obj? {
      LookupStripped(v.fields, key);
      if Get(v, key).Some? { LookupRefs(v.fields, key); }
    }
    assert Refs(Null) == {};
  }

  lemma {:induction false} PlainStripped(fields: seq<Field>)
    requires Plain(fields)
    ensures |StripFields(fields)| == |fields|
    ensures forall i :: 0 <= i < |fields| ==> StripFields(fields)[i] == Field(fields[i].key, Strip(fields[i].value))
  {
    if fields != [] {
      assert fields[0] in fields;
      PlainStripped(fields[1..]);
    }
  }

  lemma {:induction false} NormEachIgnoresProse(params: seq<Json>, spec: Json)
    requires Followable(ItemRefs(StripItems(params)), spec)
    ensures NormEach(params, spec) == NormEach(StripItems(params), Strip(spec))
  {
    if params != [] {
      var rest := StripItems(params[1..]);
      assert StripItems(params)[1..] == rest;
      ResolveIgnoresProse(params[0], spec, []);
      NormEachIgnoresProse(params[1..], spec);
    }
  }

  lemma {:induction false} ResponsesIgnoreProse(responses: seq<Field>, spec: Json)
    requires Plain(responses) && Followable(FieldRefs(StripFields(responses)), spec)
    ensures NormResponses(responses, spec) == NormResponses(StripFields(responses), Strip(spec))
  {
    if responses != [] {
      assert responses[0] in responses;
      var rest := StripFields(responses[1..]);
      assert StripFields(responses)[1..] == rest;
      ResolveIgnoresProse(responses[0].value, spec, []);
      ResponsesIgnoreProse(responses[1..], spec);
    }
  }

  lemma BodyIgnoresProse(body: Json, spec: Json)
    requires Plain(Contents(body)) && Followable(Refs(Strip(body)), spec)
    ensures NormBody(body, spec) == NormBody(Strip(body), Strip(spec))
  {
    NotProse();
    GetStripped(body, "content");
    GetStripped(Strip(body), "content");
    var content := Contents(body);
    PlainStripped(content);
    if content != [] {
      var stripped := Contents(Strip(body));
      assert stripped == StripFields(content);
      var media := content[0].value;
      GetStripped(media, "schema");
      GetStripped(Strip(media), "schema");
      assert Refs(Strip(media)) <= FieldRefs(stripped);
      ResolveIgnoresProse(Index(media, "schema"), spec, []);
    }
  }

  lemma ParamsIgnoreProse(op: Json, spec: Json)
    requires Followable(Refs(Strip(op)), spec)
    ensures NormParams(GetArr(op, "parameters"), spec) == NormParams(GetArr(Strip(op), "parameters"), Strip(spec))
  {
    hide Followable, NormEach, SortParams;
    NotProse();
    GetStripped(op, "parameters");
    GetStripped(Strip(op), "parameters");
    var params := GetArr(op, "parameters");
    assert GetArr(Strip(op), "parameters") == StripItems(params);
    FollowableParts(ItemRefs(StripItems(params)), Refs(Strip(op)), spec);
    NormEachIgnoresProse(params, spec);
  }

  lemma FollowableParts(part: set<string>, whole: set<string>, spec: Json)
    requires part <= whole && Followable(whole, spec)
    ensures Followable(part, spec)
  {
  }

  lemma StatusesIgnoreProse(op: Json, spec: Json)
    requires Plain(Statuses(op)) && Followable(Refs(Strip(op)), spec)
    ensures NormResponses(Statuses(op), spec) == NormResponses(Statuses(Strip(op)), Strip(spec))
  {
    hide Followable, NormResponses;
    NotProse();
    GetStripped(op, "responses");
    GetStripped(Strip(op), "responses");
    var responses := Statuses(op);
    assert StripFields([]) == [] && FieldRefs([]) == {};
    assert Statuses(Strip(op)) == StripFields(responses);
    FollowableParts(FieldRefs(StripFields(responses)), Refs(Strip(op)), spec);
    ResponsesIgnoreProse(responses, spec);
  }

  /** Prose churn anywhere in an endpoint or in the spec is not drift: the material
      hashed is that of the endpoint and the spec with all prose deleted. */
  lemma ProseNeverReachesTheFingerprint(op: Json, spec: Json)
    requires PlainEndpoint(op) && Followable(Refs(Strip(op)), spec)
    ensures Material(op, spec) == Material(Strip(op), Strip(spec))
  {
    hide Followable, Plain, NormBody, NormResponses, NormParams;
    ParamsIgnoreProse(op, spec);
    StatusesIgnoreProse(op, spec);
    NotProse();
    GetStripped(op, "requestBody");
    GetStripped(Strip(op), "requestBody");
    FollowableParts(Refs(Strip(Index(op, "requestBody"))), Refs(Strip(op)), spec);
    BodyIgnoresProse(Index(op, "requestBody"), spec);
  }

  /** ... so two endpoints that differ in prose alone have the same fingerprint. */
  lemma EqualUpToProse(a: Json, specA: Json, b: Json, specB: Json)
    requires Strip(a) == Strip(b) && Strip(specA) == Strip(specB)
    requires PlainEndpoint(a) && PlainEndpoint(b) && Followable(Refs(Strip(a)), specA)
    ensures Material(a, specA) == Material(b, specB)
  {
    ProseNeverReachesTheFingerprint(a, specA);
    ProseNeverReachesTheFingerprint(b, specB);
  }

  // --- the coverage manifest ---

  datatype Endpoint = Endpoint(name: string, fp: string)

  function Find(eps: seq<Endpoint>, name: string): Option<string> {
    if eps == [] then None
    else if eps[0].name == name then Some(eps[0].fp)
    else Find(eps[1..], name)
  }

  datatype Verdict = Uncovered | Stale | Current

  function Judge(ep: Endpoint, covered: seq<Field>): Verdict {
    match Lookup(covered, ep.name)
    case None => Uncovered
    case Some(entry) => if Index(entry, "fingerprint") == Str(ep.fp) then Current else Stale
  }

  function Judged(eps: seq<Endpoint>, covered: seq<Field>, v: Verdict): seq<string> {
    if eps == [] then []
    else (if Judge(eps[0], covered) == v then [eps[0].name] else []) + Judged(eps[1..], covered, v)
  }

  function Gone(eps: seq<Endpoint>, covered: seq<Field>): seq<string> {
    if covered == [] then []
    else (if Find(eps, covered[0].key).None? then [covered[0].key] else []) + Gone(eps, covered[1..])
  }

  lemma DiffEnds(eps: seq<Endpoint>, covered: seq<Field>)
    ensures eps[|eps|..] == [] && covered[|covered|..] == []
    ensures forall v :: Judged([], covered, v) == []
    ensures Gone(eps, []) == []
  {
  }

  lemma DiffStep(eps: seq<Endpoint>, covered: seq<Field>, i: nat, v: Verdict)
    ensures i < |eps| ==>
              Judged(eps[i..], covered, v) ==
              (if Judge(eps[i], covered) == v then [eps[i].name] else []) + Judged(eps[i + 1..], covered, v)
    ensures i < |covered| ==>
              Gone(eps, covered[i..]) ==
              (if Find(eps, covered[i].key).None? then [covered[i].key] else []) + Gone(eps, covered[i + 1..])
  {
    if i < |eps| { assert eps[i..][0] == eps[i] && eps[i..][1..] == eps[i + 1..]; }
    if i < |covered| { assert covered[i..][0] == covered[i] && covered[i..][1..] == covered[i + 1..]; }
  }

  method Diff(eps: seq<Endpoint>, covered: seq<Field>)
    returns (added: seq<string>, removed: seq<string>, changed: seq<string>)
    ensures added == Judged(eps, covered, Uncovered)
    ensures changed == Judged(eps, covered, Stale)
    ensures removed == Gone(eps, covered)
  {
    hide Judged, Gone, Find;
    added, removed, changed := [], [], [];
    var i := 0;
    assert eps[0..] == eps && covered[0..] == covered;
    while i < |eps|
      invariant 0 <= i <= |eps|
      invariant added + Judged(eps[i..], covered, Uncovered) == Judged(eps, covered, Uncovered)
      invariant changed + Judged(eps[i..], covered, Stale) == Judged(eps, covered, Stale)
    {
      DiffStep(eps, covered, i, Uncovered);
      DiffStep(eps, covered, i, Stale);
      var entry := Lookup(covered, eps[i].name);
      if entry.None? {
        added := added + [eps[i].name];
      } else if Index(entry.value, "fingerprint") != Str(eps[i].fp) {
        changed := changed + [eps[i].name];
      }
      i := i + 1;
    }
    DiffEnds(eps, covered);
    i := 0;
    while i < |covered|
      invariant 0 <= i <= |covered|
      invariant removed + Gone(eps, covered[i..]) == Gone(eps, covered)
    {
      DiffStep(eps, covered, i, Uncovered);
      if Find(eps, covered[i].key).None? {
        removed := removed + [covered[i].key];
      }
      i := i + 1;
    }
  }

  /** One manifest entry refreshed; None where writing the fingerprint panics. */
  function RefreshEntry(entry: Field, eps: seq<Endpoint>): Option<Field> {
    match Find(eps, entry.key)
    case None => Some(entry)
    case Some(fp) =>
      if Index(entry.value, "fingerprint") == Str(fp) then Some(entry)
      else
        match entry.value
        case Obj(fields) => Some(Field(entry.key, Obj(Put(fields, "fingerprint", Str(fp)))))
        case Null => Some(Field(entry.key, Obj([Field("fingerprint", Str(fp))])))
        case _ => None
  }

  function Refreshed(covered: seq<Field>, eps: seq<Endpoint>): Option<seq<Field>> {
    if covered == [] then Some([])
    else
      match (RefreshEntry(covered[0], eps), Refreshed(covered[1..], eps))
      case (Some(e), Some(rest)) => Some([e] + rest)
      case _ => None
  }

  function Prepend(done: seq<Field>, rest: Option<seq<Field>>): Option<seq<Field>> {
    match rest case Some(fs) => Some(done + fs) case None => None
  }

  lemma RefreshEnds(covered: seq<Field>, eps: seq<Endpoint>)
    ensures covered[0..] == covered && covered[..|covered|] == covered && covered[|covered|..] == []
    ensures Prepend(covered[..0], Refreshed(covered, eps)) == Refreshed(covered, eps)
    ensures Prepend(covered, Refreshed([], eps)) == Some(covered)
  {
    var r := Refreshed(covered, eps);
    if r.Some? { assert [] + r.value == r.value; }
    assert Refreshed([], eps) == Some([]) && covered + [] == covered;
  }

  lemma RefreshStep(done: seq<Field>, covered: seq<Field>, i: nat, eps: seq<Endpoint>)
    requires i < |covered|
    ensures Prepend(done, Refreshed(covered[i..], eps)) ==
            match RefreshEntry(covered[i], eps)
            case Some(e) => Prepend(done + [e], Refreshed(covered[i + 1..], eps))
            case None => None
  {
    assert covered[i..][0] == covered[i] && covered[i..][1..] == covered[i + 1..];
    var rest := Refreshed(covered[i + 1..], eps);
    if RefreshEntry(covered[i], eps).Some? && rest.Some? {
      var e := RefreshEntry(covered[i], eps).value;
      assert done + ([e] + rest.value) == done + [e] + rest.value;
    }
  }

  method Refresh(covered: seq<Field>, eps: seq<Endpoint>) returns (out: Option<seq<Field>>)
    ensures out == Refreshed(covered, eps)
  {
    var entries, i := covered, 0;
    RefreshEnds(covered, eps);
    while i < |entries|
      invariant 0 <= i <= |entries| == |covered| && entries[i..] == covered[i..]
      invariant Refreshed(covered, eps) == Prepend(entries[..i], Refreshed(covered[i..], eps))
    {
      assert entries[i] == entries[i..][0] == covered[i];
      RefreshStep(entries[..i], covered, i, eps);
      var e := RefreshEntry(entries[i], eps);
      if e.None? {
        return None;
      }
      var done := entries[..i];
      entries := entries[i := e.value];
      i := i + 1;
      assert entries[..i] == done + [e.value];
    }
    RefreshEnds(entries, eps);
    out := Some(entries);
  }

  lemma {:induction false} LookupPut(fields: seq<Field>, key: string, value: Json, other: string)
    ensures Lookup(Put(fields, key, value), other) == if other == key then Some(value) else Lookup(fields, other)
  {
    if fields != [] { LookupPut(fields[1..], key, value, other); }
  }

  /** A refreshed entry carries the spec's fingerprint; every other member stays. */
  lemma RefreshedEntry(entry: Field, eps: seq<Endpoint>, other: string)
    requires RefreshEntry(entry, eps).Some? && other != "fingerprint"
    ensures var now := RefreshEntry(entry, eps).value;
            now.key == entry.key && Get(now.value, other) == Get(entry.value, other) &&
            match Find(eps, entry.key)
            case Some(fp) => Index(now.value, "fingerprint") == Str(fp)
            case None => now == entry
  {
    if entry.value.Obj? && Find(eps, entry.key).Some? {
      LookupPut(entry.value.fields, "fingerprint", Str(Find(eps, entry.key).value), other);
      LookupPut(entry.value.fields, "fingerprint", Str(Find(eps, entry.key).value), "fingerprint");
    }
  }

  lemma {:induction false} RefreshedLookup(covered: seq<Field>, eps: seq<Endpoint>, name: string, other: string)
    requires Refreshed(covered, eps).Some? && other != "fingerprint"
    ensures var after := Refreshed(covered, eps).value;
            |after| == |covered| &&
            match (Lookup(covered, name), Lookup(after, name))
            case (Some(was), Some(now)) =>
              Get(now, other) == Get(was, other) &&
              (Find(eps, name).Some? ==> Index(now, "fingerprint") == Str(Find(eps, name).value))
            case (None, None) => true
            case _ => false
  {
    if covered != [] {
      RefreshedEntry(covered[0], eps, other);
      RefreshedLookup(covered[1..], eps, name, other);
      assert Refreshed(covered, eps).value[1..] == Refreshed(covered[1..], eps).value;
    }
  }

  predicate DistinctNames(eps: seq<Endpoint>) {
    forall i, j :: 0 <= i < j < |eps| ==> eps[i].name != eps[j].name
  }

  lemma {:induction false} FindOwn(eps: seq<Endpoint>, i: nat)
    requires DistinctNames(eps) && i < |eps|
    ensures Find(eps, eps[i].name) == Some(eps[i].fp)
  {
    if i > 0 { FindOwn(eps[1..], i - 1); }
  }

  lemma {:induction false} JudgedAfter(eps: seq<Endpoint>, k: nat, covered: seq<Field>)
    requires DistinctNames(eps) && k <= |eps| && Refreshed(covered, eps).Some?
    ensures var after := Refreshed(covered, eps).value;
            Judged(eps[k..], after, Uncovered) == Judged(eps[k..], covered, Uncovered) &&
            Judged(eps[k..], after, Stale) == []
    decreases |eps| - k
  {
    if k < |eps| {
      JudgedAfter(eps, k + 1, covered);
      assert eps[k..][0] == eps[k] && eps[k..][1..] == eps[k + 1..];
      FindOwn(eps, k);
      RefreshedLookup(covered, eps, eps[k].name, "");
    }
  }

  lemma {:induction false} GoneAfter(eps: seq<Endpoint>, covered: seq<Field>)
    requires Refreshed(covered, eps).Some?
    ensures Gone(eps, Refreshed(covered, eps).value) == Gone(eps, covered)
  {
    if covered != [] {
      RefreshedEntry(covered[0], eps, "");
      GoneAfter(eps, covered[1..]);
      assert Refreshed(covered, eps).value[1..] == Refreshed(covered[1..], eps).value;
    }
  }

  /** A refresh clears exactly the changed list: new and removed endpoints stay for
      a person to triage, and no entry's mapping is touched. */
  lemma RefreshLeavesOnlyTriage(eps: seq<Endpoint>, covered: seq<Field>, name: string, member: string)
    requires DistinctNames(eps) && Refreshed(covered, eps).Some? && member != "fingerprint"
    ensures var after := Refreshed(covered, eps).value;
            Judged(eps, after, Stale) == [] &&
            Judged(eps, after, Uncovered) == Judged(eps, covered, Uncovered) &&
            Gone(eps, after) == Gone(eps, covered) &&
            match (Lookup(covered, name), Lookup(after, name))
            case (Some(was), Some(now)) => Get(now, member) == Get(was, member)
            case (None, None) => true
            case _ => false
  {
    assert eps[0..] == eps;
    JudgedAfter(eps, 0, covered);
    GoneAfter(eps, covered);
    RefreshedLookup(covered, eps, name, member);
  }
}
