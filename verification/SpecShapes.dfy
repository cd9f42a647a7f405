/** What a mock spec's members come to in the index it builds. */
module SpecShapes {
  import opened Options
  import opened Json
  import opened Trace
  import opened Mocks
  import opened MockSpecs

  // --- when a spec is one ---

  /** Nothing, one string, or a list of strings. */
  predicate StringList(v: Option<Json>) {
    match v
    case None => true
    case Some(Null) => true
    case Some(Str(_)) => true
    case Some(Arr(items)) => forall x | x in items :: x.Str?
    case _ => false
  }

  /** The strings in it. */
  predicate Lists(v: Option<Json>, strings: seq<string>) {
    match v
    case Some(Str(s)) => strings == [s]
    case Some(Arr(items)) => |strings| == |items| && forall i | 0 <= i < |items| :: items[i] == Str(strings[i])
    case _ => strings == []
  }

  lemma {:induction false} AllStringsList(items: seq<Json>)
    ensures AllStrings(items).Some? <==> forall x | x in items :: x.Str?
    ensures AllStrings(items).Some? ==> Lists(Some(Arr(items)), AllStrings(items).value)
  {
    if items != [] {
      AllStringsList(items[1..]);
      assert items == [items[0]] + items[1..] && items[0] in items;
      forall x ensures x in items <==> x == items[0] || x in items[1..] {}
    }
  }

  lemma StringsList(v: Option<Json>)
    ensures Strings(v).Some? <==> StringList(v)
    ensures Strings(v).Some? ==> Lists(v, Strings(v).value)
  {
    if v.Some? && v.value.Arr? { AllStringsList(v.value.items); }
  }

  /** A run id is "run_" and at least one more letter, digit, underscore or dash. */
  lemma RunIds(tail: string)
    ensures ValidRunId("run_" + tail) <==>
            && tail != ""
            && forall c | c in tail :: 'a' <= c <= 'z' || 'A' <= c <= 'Z' || '0' <= c <= '9' || c == '_' || c == '-'
    ensures !("run_" <= tail) ==> !ValidRunId(tail)
  {
    var id := "run_" + tail;
    assert id[..4] == "run_" && id[0] == 'r' && id[1] == 'u' && id[2] == 'n' && id[3] == '_';
    forall i | 4 <= i < |id| ensures id[i] == tail[i - 4] && id[i] in tail {}
    if ValidRunId(id) {
      forall c | c in tail ensures RunIdChar(c) {
        var i :| 0 <= i < |tail| && tail[i] == c;
        assert id[i + 4] == c;
      }
    }
  }

  /** An inline record names an effect and says what comes of it, an output or an error. */
  ghost predicate RecordShape(r: Json) {
    && (exists name | name != "" :: Get(r, "effect") == Some(Str(name)))
    && (Get(r, "error").Some? && Get(r, "error").value.Obj?)
       != (Get(r, "output").Some? && !Get(r, "output").value.Null?)
  }

  lemma RecordShapes(r: Json)
    ensures RecordOk(r) <==> RecordShape(r)
  {
    if RecordOk(r) {
      assert GetStr(r, "effect") != "" && Get(r, "effect") == Some(Str(GetStr(r, "effect")));
    }
  }

  lemma FromShape(v: Option<Json>)
    requires Strings(v).Some?
    ensures (forall run | run in Strings(v).value :: ValidRunId(run)) <==>
            && (forall s | v == Some(Str(s)) :: ValidRunId(s))
            && (forall items, s | v == Some(Arr(items)) && Str(s) in items :: ValidRunId(s))
  {
    hide ValidRunId;
    StringsList(v);
    if v.Some? && v.value.Arr? {
      var items, strings := v.value.items, Strings(v).value;
      forall s ensures Str(s) in items <==> s in strings {
        if Str(s) in items { var i :| 0 <= i < |items| && items[i] == Str(s); assert strings[i] == s; }
        if s in strings { var i :| 0 <= i < |strings| && strings[i] == s; assert items[i] == Str(s); }
      }
    }
  }

  predicate FilterShape(fields: seq<Field>) {
    && StringList(Lookup(fields, "only")) && StringList(Lookup(fields, "except"))
    && Lookup(fields, "unmatched") in {None, Some(Null), Some(Str("fail")), Some(Str("live"))}
  }

  lemma FiltersParse(fields: seq<Field>, from: seq<string>, records: seq<Json>)
    ensures ParseFilters(fields, from, records).Ok? <==> FilterShape(fields)
    ensures FilterShape(fields) ==>
              var spec := ParseFilters(fields, from, records).value;
              && spec.from == from && spec.records == records
              && Lists(Lookup(fields, "only"), spec.only) && Lists(Lookup(fields, "except"), spec.except)
              && (spec.unmatched == Live <==> Lookup(fields, "unmatched") == Some(Str("live")))
  {
    hide Strings, StringList, Lists, Policy;
    StringsList(Lookup(fields, "only"));
    StringsList(Lookup(fields, "except"));
    Policies(Lookup(fields, "unmatched"));
  }

  ghost predicate RecordsShape(v: Option<Json>) {
    match v
    case None => true
    case Some(Null) => true
    case Some(Arr(records)) => forall r | r in records :: RecordShape(r)
    case _ => false
  }

  lemma RestParses(fields: seq<Field>, from: seq<string>)
    ensures ParseRest(fields, from).Ok? <==> RecordsShape(Lookup(fields, "records")) && FilterShape(fields)
  {
    hide ParseFilters, RecordOk, RecordShape, FilterShape;
    FiltersParse(fields, from, []);
    if Lookup(fields, "records").Some? && Lookup(fields, "records").value.Arr? {
      var records := Lookup(fields, "records").value.items;
      FiltersParse(fields, from, records);
      forall r | r in records ensures RecordOk(r) <==> RecordShape(r) { RecordShapes(r); }
    }
  }

  ghost predicate FromIds(v: Option<Json>) {
    && StringList(v)
    && (forall s | v == Some(Str(s)) :: ValidRunId(s))
    && (forall items, s | v == Some(Arr(items)) && Str(s) in items :: ValidRunId(s))
  }

  predicate KnownKeys(fields: seq<Field>) {
    forall f | f in fields ::
      f.key == "from" || f.key == "only" || f.key == "except" || f.key == "records" || f.key == "unmatched"
  }

  /** Which objects are specs: no other members; run ids under `from`; lists of strings,
      records and a policy under the others, where they are. */
  lemma ParsesExactly(v: Json)
    requires v.Obj?
    ensures Parse(v).Ok? <==>
            && KnownKeys(v.fields) && FromIds(Get(v, "from")) && RecordsShape(Get(v, "records"))
            && StringList(Get(v, "only")) && StringList(Get(v, "except"))
            && Get(v, "unmatched") in {None, Some(Null), Some(Str("fail")), Some(Str("live"))}
  {
    hide ValidRunId, Strings, StringList, ParseRest, RecordsShape, Lookup;
    var from := Lookup(v.fields, "from");
    StringsList(from);
    if Strings(from).Some? {
      FromShape(from);
      RestParses(v.fields, Strings(from).value);
    }
    assert KnownKeys(v.fields) <==> !exists f | f in v.fields :: f.key !in KEYS;
  }

  lemma Policies(v: Option<Json>)
    ensures Policy(v).Some? <==> v in {None, Some(Null), Some(Str("fail")), Some(Str("live"))}
    ensures Policy(v) == Some(Live) <==> v == Some(Str("live"))
  {
    assert "fail"[0] == 'f' && "live"[0] == 'l';
  }

  /** A spec's filters are its strings, and a miss fails unless it says live. */
  lemma FiltersAreGiven(v: Json, runs: Runs)
    requires v.Obj? && Build(v, runs).Ok?
    ensures var idx := Build(v, runs).value;
            && Lists(Get(v, "only"), idx.only) && Lists(Get(v, "except"), idx.except)
            && (idx.unmatched == Live <==> Get(v, "unmatched") == Some(Str("live")))
            && idx.onlyHits == idx.exceptHits == 0
  {
    hide FoldAll, Inline, Missing, Strings, ValidRunId, RecordOk, ParseFilters, StringList, Lists, Lookup;
    var spec := Parse(v).value;
    FiltersParse(v.fields, spec.from, spec.records);
    ParsesInto(v);
  }

  lemma ParsesInto(v: Json)
    requires v.Obj? && Parse(v).Ok?
    ensures Parse(v) == ParseFilters(v.fields, Parse(v).value.from, Parse(v).value.records)
    ensures Get(v, "records").Some? && Get(v, "records").value.Arr? ==>
              Parse(v).value.records == Get(v, "records").value.items
  {
    hide Strings, ValidRunId, RecordOk, Policy;
  }

  // --- inline records ---

  /** Where record r answers: any call of its effect, or only one of its input. */
  predicate AnswersAt(r: Json, name: string, k: MockKey) {
    && Get(r, "effect") == Some(Str(name))
    && match k
       case Wildcard => Get(r, "input") in {None, Some(Null)}
       case Exact(key) => key.name == name && key.input != Null && Get(r, "input") == Some(key.input)
  }

  /** What it answers with. */
  ghost predicate AnswersWith(r: Json, i: nat, slot: Slot) {
    && slot.inlined == Some(i) && Get(slot.provenance, "inline").Some? && slot.rec.ok.None?
    && slot.rec.output == (match Get(r, "output") case Some(x) => x case None => Null)
    && (slot.rec.error.Some? <==> Get(r, "error").Some? && Get(r, "error").value.Obj?)
    && (forall text | Get(r, "error").Some? && Get(Get(r, "error").value, "type") == Some(Str(text)) ::
          slot.rec.error.Some? && slot.rec.error.value.kind == text)
    && (forall text | Get(r, "error").Some? && Get(Get(r, "error").value, "message") == Some(Str(text)) ::
          slot.rec.error.Some? && slot.rec.error.value.message == text)
    && (slot.repeats <==> Get(r, "repeat") == Some(Bool(true)))
  }

  lemma SlotAnswers(r: Json, i: nat)
    ensures AnswersWith(r, i, InlineSlot(r, i))
  {
  }

  lemma KeyAnswers(r: Json, name: string, k: MockKey)
    requires GetStr(r, "effect") != "" && name != ""
    ensures AnswersAt(r, name, k) <==> GetStr(r, "effect") == name && InlineKey(r) == k
  {
  }

  /** The records that answer there, in their order. */
  ghost predicate InlineQueue(records: seq<Json>, name: string, k: MockKey, q: seq<Slot>)
    decreases |records|
  {
    if records == [] then q == []
    else
      var n := |records| - 1;
      if AnswersAt(records[n], name, k) then
        q != [] && AnswersWith(records[n], n, q[|q| - 1]) && InlineQueue(records[..n], name, k, q[..|q| - 1])
      else InlineQueue(records[..n], name, k, q)
  }

  function At(q: Queues, name: string, k: MockKey): seq<Slot> { if (name, k) in q then q[(name, k)] else [] }

  lemma {:induction false} InlinesQueued(records: seq<Json>, name: string, k: MockKey)
    requires (forall r | r in records :: RecordOk(r)) && name != ""
    ensures InlineQueue(records, name, k, At(Inline(records), name, k))
  {
    hide AnswersAt, AnswersWith, InlineSlot, InlineKey, RecordOk;
    if records != [] {
      var n := |records| - 1;
      InlinesQueued(records[..n], name, k);
      assert RecordOk(records[n]);
      assert GetStr(records[n], "effect") != "" by { NamesAnEffect(records[n]); }
      KeyAnswers(records[n], name, k);
      SlotAnswers(records[n], n);
      var q := At(Inline(records), name, k);
      if AnswersAt(records[n], name, k) {
        assert q[..|q| - 1] == At(Inline(records[..n]), name, k);
      }
    }
  }

  lemma NamesAnEffect(r: Json)
    requires RecordOk(r)
    ensures GetStr(r, "effect") != ""
  {
  }

  lemma {:induction false} FoldGrows(q: Queues, log: seq<Trace.Record>, run: string, name: string, k: MockKey)
    ensures At(q, name, k) <= At(FoldRun(q, log, run).queues, name, k)
  {
    if log != [] { FoldGrows(q, log[..|log| - 1], run, name, k); }
  }

  lemma {:induction false} FoldAllGrows(q: Queues, from: seq<string>, runs: Runs, name: string, k: MockKey)
    ensures At(q, name, k) <= At(FoldAll(q, from, runs), name, k)
  {
    if from != [] {
      var n := |from| - 1;
      FoldAllGrows(q, from[..n], runs, name, k);
      if runs.Load(from[n]).Ok? { FoldGrows(FoldAll(q, from[..n], runs), runs.Load(from[n]).value, from[n], name, k); }
    }
  }

  /** An index answers first from the inline records of its spec: of those that name the
      effect, and the input if they have one, one after the other, each with its output or
      its error. */
  lemma InlineAnswersFirst(v: Json, runs: Runs, records: seq<Json>, name: string, k: MockKey) returns (q: seq<Slot>)
    requires v.Obj? && Build(v, runs).Ok? && Get(v, "records") == Some(Arr(records)) && name != ""
    ensures InlineQueue(records, name, k, q) && q <= Queue(Build(v, runs).value, name, k)
  {
    hide Inline, FoldAll, Missing, Strings, ValidRunId, RecordOk, InlineQueue, Policy;
    InlinesQueued(records, name, k);
    q := At(Inline(records), name, k);
    FoldAllGrows(Inline(records), Parse(v).value.from, runs, name, k);
  }

  // --- named runs ---

  /** A spec builds if it is one and every run it names loads: a bare run id names itself, an
      object those under `from`. */
  lemma LoadsExactly(v: Json, runs: Runs)
    ensures Build(v, runs).Ok? <==>
            && Parse(v).Ok?
            && (forall run | v == Str(run) || Get(v, "from") == Some(Str(run)) ::
                  run == runs.own || runs.store(run).Ok?)
            && (forall items, run | Get(v, "from") == Some(Arr(items)) && Str(run) in items ::
                  run == runs.own || runs.store(run).Ok?)
  {
    hide ValidRunId, RecordOk, FoldAll, Inline;
    if Parse(v).Ok? {
      var from := Parse(v).value.from;
      NamesNone(from, runs);
      NamedBy(v);
    }
  }

  lemma {:induction false} NamesNone(from: seq<string>, runs: Runs)
    ensures Missing(from, runs).None? <==> forall run | run in from :: runs.Load(run).Ok?
  {
    if from != [] {
      NamesNone(from[1..], runs);
      assert from == [from[0]] + from[1..];
    }
  }

  lemma NamedBy(v: Json)
    requires Parse(v).Ok?
    ensures forall run :: run in Parse(v).value.from <==>
              || v == Str(run) || Get(v, "from") == Some(Str(run))
              || exists items :: Get(v, "from") == Some(Arr(items)) && Str(run) in items
  {
    hide ValidRunId, RecordOk, Policy;
    var from := Parse(v).value.from;
    if v.Obj? {
      var given := Lookup(v.fields, "from");
      assert Strings(given) == Some(from);
      StringsList(given);
      if given.Some? && given.value.Arr? {
        var items := given.value.items;
        forall s ensures Str(s) in items <==> s in from {
          if Str(s) in items { var i :| 0 <= i < |items| && items[i] == Str(s); assert from[i] == s; }
          if s in from { var i :| 0 <= i < |from| && from[i] == s; assert items[i] == Str(s); }
        }
      }
    }
  }

  lemma {:induction false} FoldsApart(q: Queues, log: seq<Trace.Record>, run: string, name: string, k: MockKey)
    ensures FoldRun(q, log, run).begun == FoldRun(map[], log, run).begun
    ensures At(FoldRun(q, log, run).queues, name, k)
            == At(q, name, k) + At(FoldRun(map[], log, run).queues, name, k)
  {
    hide FoldOne;
    if log != [] {
      var most := log[..|log| - 1];
      FoldsApart(q, most, run, name, k);
      OneFoldsApart(FoldRun(q, most, run), FoldRun(map[], most, run), log[|log| - 1], run, At(q, name, k), name, k);
    }
  }

  lemma OneFoldsApart(f: Folding, g: Folding, r: Trace.Record, run: string, before: seq<Slot>, name: string, k: MockKey)
    requires f.begun == g.begun && At(f.queues, name, k) == before + At(g.queues, name, k)
    ensures FoldOne(f, r, run).begun == FoldOne(g, r, run).begun
    ensures At(FoldOne(f, r, run).queues, name, k) == before + At(FoldOne(g, r, run).queues, name, k)
  {
  }

  /** After the inline records the runs answer, each whole, in the order they are named. */
  lemma RunsAnswerInOrder(records: seq<Json>, first: string, second: string, runs: Runs, name: string, k: MockKey)
    requires runs.Load(first).Ok? && runs.Load(second).Ok?
    ensures At(FoldAll(Inline(records), [first, second], runs), name, k) ==
            At(Inline(records), name, k)
            + At(FoldRun(map[], runs.Load(first).value, first).queues, name, k)
            + At(FoldRun(map[], runs.Load(second).value, second).queues, name, k)
  {
    hide FoldRun, Inline;
    var from := [first, second];
    assert from[..1] == [first] && [first][..0] == [];
    assert FoldAll(Inline(records), [first], runs) == FoldRun(Inline(records), runs.Load(first).value, first).queues;
    FoldsApart(Inline(records), runs.Load(first).value, first, name, k);
    FoldsApart(FoldAll(Inline(records), [first], runs), runs.Load(second).value, second, name, k);
  }
}
