/** From a mock spec to its index: the shape of a spec, the runs it names, and the queues
    folded from inline records and from traces. */
module MockSpecs {
  import opened Options
  import opened Json
  import opened Trace
  import opened Mocks

  // --- the spec ---

  datatype Spec = Spec(from: seq<string>, only: seq<string>, except: seq<string>, records: seq<Json>,
      unmatched: MissPolicy)

  const KEYS: set<string> := {"from", "only", "except", "records", "unmatched"}

  predicate RunIdChar(c: char) {
    'a' <= c <= 'z' || 'A' <= c <= 'Z' || '0' <= c <= '9' || c == '_' || c == '-'
  }

  predicate ValidRunId(id: string) {
    "run_" <= id && |id| > 4 && forall i | 0 <= i < |id| :: RunIdChar(id[i])
  }

  function AllStrings(items: seq<Json>): Option<seq<string>> {
    if items == [] then Some([])
    else
      match (items[0], AllStrings(items[1..]))
      case (Str(s), Some(rest)) => Some([s] + rest)
      case _ => None
  }

  /** One string is a list of one; nothing is the empty list. */
  function Strings(v: Option<Json>): Option<seq<string>> {
    match v
    case None | Some(Null) => Some([])
    case Some(Str(s)) => Some([s])
    case Some(Arr(items)) => AllStrings(items)
    case _ => None
  }

  /** An inline record names its effect and has either an output or an error. */
  predicate RecordOk(r: Json) {
    var output, error := Index(r, "output"), Index(r, "error");
    GetStr(r, "effect") != "" && (output != Null) != error.Obj?
  }

  function Parse(v: Json): Result<Spec, string> {
    match v
    case Str(run) => ParseFields([Field("from", Str(run))])
    case Obj(fields) => ParseFields(fields)
    case _ => Err("mock: expected an object or a run id")
  }

  function ParseFields(fields: seq<Field>): Result<Spec, string> {
    if exists f | f in fields :: f.key !in KEYS then Err("mock: unknown key")
    else
      match Strings(Lookup(fields, "from"))
      case None => Err("mock.from: expected a string or list")
      case Some(from) =>
        if exists run | run in from :: !ValidRunId(run) then Err("mock.from: not a run id")
        else ParseRest(fields, from)
  }

  function ParseRest(fields: seq<Field>, from: seq<string>): Result<Spec, string> {
    match Lookup(fields, "records")
    case Some(Arr(records)) =>
      if exists r | r in records :: !RecordOk(r) then Err("mock.records: missing effect, or not one of output and error")
      else ParseFilters(fields, from, records)
    case None | Some(Null) => ParseFilters(fields, from, [])
    case _ => Err("mock.records: expected a list")
  }

  function ParseFilters(fields: seq<Field>, from: seq<string>, records: seq<Json>): Result<Spec, string> {
    match Policy(Lookup(fields, "unmatched"))
    case None => Err("mock.unmatched: expected fail or live")
    case Some(unmatched) =>
      match (Strings(Lookup(fields, "only")), Strings(Lookup(fields, "except")))
      case (Some(only), Some(except)) => Ok(Spec(from, only, except, records, unmatched))
      case _ => Err("mock: expected a string or list")
  }

  function Policy(v: Option<Json>): Option<MissPolicy> {
    match v
    case None | Some(Null) => Some(Fail)
    case Some(Str(s)) => if s == "fail" then Some(Fail) else if s == "live" then Some(Live) else None
    case _ => None
  }

  // --- the queues ---

  type Queues = map<(string, MockKey), seq<Slot>>

  function Enqueue(q: Queues, name: string, k: MockKey, slot: Slot): Queues {
    q[(name, k) := (if (name, k) in q then q[(name, k)] else []) + [slot]]
  }

  function FailureOf(error: Json): Option<Failure> {
    if error.Obj? then Some(Failure(GetStr(error, "type"), GetStr(error, "message"))) else None
  }

  function Digit(n: nat): char
    requires n < 10
  {
    "0123456789"[n]
  }

  function Decimal(n: nat): string {
    if n < 10 then [Digit(n)] else Decimal(n / 10) + [Digit(n % 10)]
  }

  /** Inline record i: without an input it answers any call of its effect. */
  function InlineSlot(r: Json, i: nat): Slot {
    Slot(Outcome(Index(r, "output"), FailureOf(Index(r, "error")), None), Obj([Field("inline", Num(Decimal(i)))]),
         Some(i), Index(r, "repeat") == Bool(true))
  }

  function InlineKey(r: Json): MockKey {
    match Get(r, "input")
    case None | Some(Null) => Wildcard
    case Some(input) => Exact(Key(GetStr(r, "effect"), input))
  }

  function Inline(records: seq<Json>): Queues {
    if records == [] then map[]
    else
      var n := |records| - 1;
      Enqueue(Inline(records[..n]), GetStr(records[n], "effect"), InlineKey(records[n]), InlineSlot(records[n], n))
  }

  /** One record of a loaded run. */
  function From(run: string, output: Json, error: Option<Failure>, ok: Option<bool>): Slot {
    Slot(Outcome(output, error, ok), Obj([Field("from", Str(run))]), None, false)
  }

  /** The queues so far, and the spans begun but not ended with their keys. */
  datatype Folding = Folding(queues: Queues, begun: map<nat, (string, Key)>)

  function FoldOne(f: Folding, r: Trace.Record, run: string): Folding {
    match r
    case Effect(_, _, _, _, _, _, _, _) => f.(queues := Enqueue(f.queues, r.name, Exact(r.key), From(run, r.output,
        r.error, None)))
    case SpanBegin(_, _, _, _, _, _) => f.(begun := f.begun[r.id := (r.name, r.key)])
    case SpanEnd(_, _, _, _, _, _, _) =>
      if r.id in f.begun then
        var (name, key) := f.begun[r.id];
        Folding(Enqueue(f.queues, name, Exact(key), From(run, r.output, FailureOf(r.serror), Some(r.ok))),
            f.begun - {r.id})
      else f
    case Cell(_, _, _, _) => f
  }

  /** A whole run on top of the queues there are. */
  function FoldRun(q: Queues, log: seq<Trace.Record>, run: string): Folding {
    if log == [] then Folding(q, map[]) else FoldOne(FoldRun(q, log[..|log| - 1], run), log[|log| - 1], run)
  }

  /** What a broker can load: its own records so far under its own id, and stored runs. */
  datatype Runs = Runs(own: string, log: seq<Trace.Record>, store: string -> Result<seq<Trace.Record>, string>)
  {
    function Load(run: string): Result<seq<Trace.Record>, string> {
      if run == own then Ok(log) else store(run)
    }
  }

  function FoldAll(q: Queues, from: seq<string>, runs: Runs): Queues {
    if from == [] then q
    else
      var before, run := FoldAll(q, from[..|from| - 1], runs), from[|from| - 1];
      match runs.Load(run) case Ok(log) => FoldRun(before, log, run).queues case Err(_) => before
  }

  /** The first named run that cannot be loaded. */
  function Missing(from: seq<string>, runs: Runs): Option<string> {
    if from == [] then None
    else match runs.Load(from[0]) case Err(message) => Some(message) case Ok(_) => Missing(from[1..], runs)
  }

  function Zeros(n: nat): seq<nat> { seq(n, i => 0) }

  function IndexOf(spec: Spec, runs: Runs): MockIndex {
    MockIndex(FoldAll(Inline(spec.records), spec.from, runs), spec.only, spec.except, spec.unmatched,
              0, 0, Zeros(|spec.records|))
  }

  /** `build_mock_index`: a bad spec or a run that cannot be loaded is the caller's error. */
  function Build(v: Json, runs: Runs): Result<MockIndex, string> {
    match Parse(v)
    case Err(message) => Err(message)
    case Ok(spec) =>
      match Missing(spec.from, runs)
      case Some(message) => Err(message)
      case None => Ok(IndexOf(spec, runs))
  }

  // --- as it runs ---

  /** The loop over one run's records. */
  method FoldInto(q: Queues, log: seq<Trace.Record>, run: string) returns (queues: Queues)
    ensures queues == FoldRun(q, log, run).queues
  {
    queues := q;
    var begun: map<nat, (string, Key)> := map[];
    var i := 0;
    while i < |log|
      invariant 0 <= i <= |log|
      invariant Folding(queues, begun) == FoldRun(q, log[..i], run)
    {
      var r := log[i];
      assert log[..i + 1][..i] == log[..i] && log[..i + 1][i] == r;
      match r {
        case Effect(_, _, _, _, _, _, _, _) =>
          queues := Enqueue(queues, r.name, Exact(r.key), From(run, r.output, r.error, None));
        case SpanBegin(_, _, _, _, _, _) =>
          begun := begun[r.id := (r.name, r.key)];
        case SpanEnd(_, _, _, _, _, _, _) =>
          if r.id in begun {
            var (name, key) := begun[r.id];
            begun := begun - {r.id};
            queues := Enqueue(queues, name, Exact(key), From(run, r.output, FailureOf(r.serror), Some(r.ok)));
          }
        case Cell(_, _, _, _) =>
      }
      i := i + 1;
    }
    assert log[..i] == log;
  }

  lemma {:induction false} NoneMissing(from: seq<string>, runs: Runs)
    ensures Missing(from, runs).None? <==> forall run | run in from :: runs.Load(run).Ok?
  {
    if from != [] {
      NoneMissing(from[1..], runs);
      assert from == [from[0]] + from[1..];
    }
  }

  /** The loop that loads every run the spec names. */
  method LoadNamed(from: seq<string>, runs: Runs) returns (missing: Option<string>)
    ensures missing == Missing(from, runs)
    ensures missing.None? ==> forall run | run in from :: runs.Load(run).Ok?
  {
    var i := 0;
    assert from[0..] == from;
    while i < |from|
      invariant 0 <= i <= |from|
      invariant Missing(from, runs) == Missing(from[i..], runs)
    {
      assert from[i..][0] == from[i] && from[i..][1..] == from[i + 1..];
      var loaded := runs.Load(from[i]);
      if loaded.Err? {
        return Some(loaded.error);
      }
      i := i + 1;
    }
    NoneMissing(from, runs);
    missing := None;
  }

  method InlineInto(records: seq<Json>) returns (queues: Queues)
    ensures queues == Inline(records)
  {
    hide Enqueue, InlineKey, InlineSlot;
    queues := map[];
    var i := 0;
    while i < |records|
      invariant 0 <= i <= |records|
      invariant queues == Inline(records[..i])
    {
      assert records[..i + 1][..i] == records[..i] && records[..i + 1][i] == records[i];
      queues := Enqueue(queues, GetStr(records[i], "effect"), InlineKey(records[i]), InlineSlot(records[i], i));
      i := i + 1;
    }
    assert records[..i] == records;
  }

  method FoldNamed(q: Queues, from: seq<string>, runs: Runs) returns (queues: Queues)
    requires forall run | run in from :: runs.Load(run).Ok?
    ensures queues == FoldAll(q, from, runs)
  {
    queues := q;
    var i := 0;
    while i < |from|
      invariant 0 <= i <= |from|
      invariant queues == FoldAll(q, from[..i], runs)
    {
      assert from[..i + 1][..i] == from[..i] && from[..i + 1][i] == from[i];
      queues := FoldInto(queues, runs.Load(from[i]).value, from[i]);
      i := i + 1;
    }
    assert from[..i] == from;
  }

  /** Loading what the spec names, then the inline records, then each run in its order. */
  method BuildIndex(v: Json, runs: Runs) returns (r: Result<MockIndex, string>)
    ensures r == Build(v, runs)
  {
    hide Parse, Missing, Inline, FoldAll;
    var parsed := Parse(v);
    if parsed.Err? {
      return Err(parsed.error);
    }
    var spec := parsed.value;
    var missing := LoadNamed(spec.from, runs);
    if missing.Some? {
      return Err(missing.value);
    }
    var queues := InlineInto(spec.records);
    queues := FoldNamed(queues, spec.from, runs);
    r := Ok(MockIndex(queues, spec.only, spec.except, spec.unmatched, 0, 0, Zeros(|spec.records|)));
  }

  // --- the same spec over different runs ---

  predicate Names(v: Json, run: string) { Parse(v).Ok? && run in Parse(v).value.from }

  lemma {:induction false} FoldAllDepends(q: Queues, from: seq<string>, a: Runs, b: Runs)
    requires forall run | run in from :: a.Load(run) == b.Load(run)
    ensures FoldAll(q, from, a) == FoldAll(q, from, b)
  {
    if from != [] { FoldAllDepends(q, from[..|from| - 1], a, b); }
  }

  lemma {:induction false} MissingDepends(from: seq<string>, a: Runs, b: Runs)
    requires forall run | run in from :: a.Load(run) == b.Load(run)
    ensures Missing(from, a) == Missing(from, b)
  {
    if from != [] { MissingDepends(from[1..], a, b); }
  }

  /** An index is a function of the spec and of the runs it names. */
  lemma BuildDependsOnNamedRuns(v: Json, a: Runs, b: Runs)
    requires forall run | Names(v, run) :: a.Load(run) == b.Load(run)
    ensures Build(v, a) == Build(v, b)
  {
    if Parse(v).Ok? {
      var from := Parse(v).value.from;
      forall run | run in from ensures a.Load(run) == b.Load(run) { assert Names(v, run); }
      MissingDepends(from, a, b);
      FoldAllDepends(Inline(Parse(v).value.records), from, a, b);
    }
  }

  /** Whether it builds does not depend on what the runs hold. */
  lemma BuildsWhereLoads(v: Json, a: Runs, b: Runs)
    requires forall run | Names(v, run) :: a.Load(run).Ok? == b.Load(run).Ok?
    ensures Build(v, a).Ok? == Build(v, b).Ok?
    ensures Build(v, a).Ok? ==>
      var x, y := Build(v, a).value, Build(v, b).value;
      && x.only == y.only && x.except == y.except && x.unmatched == y.unmatched
      && x.onlyHits == y.onlyHits == 0 && x.exceptHits == y.exceptHits == 0 && x.inlineHits == y.inlineHits
  {
    if Parse(v).Ok? {
      var from := Parse(v).value.from;
      forall run | run in from ensures a.Load(run).Ok? == b.Load(run).Ok? { assert Names(v, run); }
      NoneMissing(from, a);
      NoneMissing(from, b);
    }
  }

  // --- a whole run ---

  /** A run id alone is a spec: everything in that run is mockable, and a miss fails. */
  lemma RunIdParses(run: string)
    requires ValidRunId(run)
    ensures Parse(Str(run)) == Ok(Spec([run], [], [], [], Fail))
  {
    var fields := [Field("from", Str(run))];
    assert |"from"| == |"only"| == 4 && "from"[0] != "only"[0] && |"except"| == 6 && |"records"| == 7
        && |"unmatched"| == 9;
    assert fields[1..] == [];
    assert Lookup(fields, "records") == Lookup(fields, "unmatched") == Lookup(fields, "only") == Lookup(fields,
        "except") == None;
  }

  lemma RunIdBuilds(run: string, runs: Runs, log: seq<Trace.Record>)
    requires ValidRunId(run) && runs.Load(run) == Ok(log)
    ensures Build(Str(run), runs) == Ok(MockIndex(FoldRun(map[], log, run).queues, [], [], Fail, 0, 0, []))
  {
    hide Parse, FoldRun;
    RunIdParses(run);
    assert [run][..0] == [] && [run][1..] == [];
    assert Missing([run], runs) == Missing([], runs) == None;
    assert FoldAll(Inline([]), [], runs) == map[];
    assert FoldAll(Inline([]), [run], runs) == FoldRun(map[], log, run).queues;
    assert Zeros(0) == [];
  }

  /** Loaded runs answer by input, each record once. */
  predicate PlainQueues(q: Queues) {
    forall k | k in q :: k.1.Exact? && forall slot | slot in q[k] :: !slot.repeats
  }

  lemma OneStaysPlain(f: Folding, r: Trace.Record, run: string)
    requires PlainQueues(f.queues)
    ensures PlainQueues(FoldOne(f, r, run).queues)
  {
  }

  lemma {:induction false} FoldedIsPlain(log: seq<Trace.Record>, run: string)
    ensures PlainQueues(FoldRun(map[], log, run).queues)
  {
    if log != [] {
      var n := |log| - 1;
      FoldedIsPlain(log[..n], run);
      OneStaysPlain(FoldRun(map[], log[..n], run), log[n], run);
    }
  }
}
