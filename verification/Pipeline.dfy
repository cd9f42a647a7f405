/** What the broker does to its state, call by call: classify, key, capability
    check, replay or mock consult, execute, record.  The state is a value here;
    `Broker` performs the same steps in place.

    The outside world is a parameter (`Host`): routing tables, the blob
    directory, what each live execution answers, and the clock. */
module Pipeline {
  import opened Options
  import opened Json
  import opened Trace
  import opened Mocks
  import opened MockSpecs
  import opened Caps

  /** What a live execution answers; an http call may first need a token refresh. */
  datatype Answer = Answer(refresh: Option<string>, result: Result<Json, Failure>)

  datatype Host = Host(
    httpMutates: (string, string) -> bool,
    httpCap: (string, string) -> string,
    materialize: Json -> Result<Json, Failure>,
    runId: string,
    runs: string -> Result<seq<Trace.Record>, string>,
    blobRead: Json -> Result<Json, Failure>,
    answer: (nat, string, Json) -> Answer,
    elapsed: nat -> nat)

  datatype Mode = Record | Replay | Mock

  /** The outcome a span was served with, for the `span.begin` reply. */
  datatype Served = Served(ok: bool, output: Json, error: Option<Failure>)

  datatype Frame = Frame(
    id: nat, name: string, kind: Option<string>, tally: Tally, ownsMock: bool,
    served: Option<(Served, Json)>)

  datatype Execution = Execution(name: string, payload: Json, hosted: bool)

  datatype State = State(
    mode: Mode, cell: Option<string>, cursor: Cursor,
    mockIndex: Option<MockIndex>, spanMocks: seq<MockIndex>, grants: Option<GrantSet>,
    mutations: nat, hosted: int, stack: seq<Frame>, spanN: nat,
    log: seq<Trace.Record>, ran: seq<Execution>)

  const DIVERGENCE := Failure("DivergenceError", "replay divergence")
  const DENIED := "capability_denied"
  const UNKNOWN := "unknown_effect"

  // --- boundary facts about an effect ---

  predicate IsHttp(name: string) { "http." <= name }

  function Classify(h: Host, name: string, payload: Json): Class {
    if IsHttp(name) then
      if h.httpMutates(name[5..], GetStr(payload, "url")) then Mutate else Read
    else if name in {"oauth.connect", "oauth.disconnect", "oauth.refresh", "config.set", "bao.status"} then
      Mutate
    else
      Read
  }

  function CapOf(h: Host, name: string, payload: Json): string {
    if IsHttp(name) then h.httpCap(name[5..], GetStr(payload, "url")) else name
  }

  predicate Known(name: string) {
    || IsHttp(name)
    || name in {"config.get", "config.set", "runtime.get", "mailbox.drain", "time.now", "fuel.state",
                "uuid4", "sleep", "env.get", "oauth.connect", "oauth.status", "oauth.disconnect",
                "oauth.refresh", "module.resolve", "bao.status", "batch", "trace.effects_of",
                "trace.effect_get", "trace.runs", "trace.stats", "trace.query", "blob.read",
                "blob.put", "kernel.boot"}
  }

  // --- small steps ---

  function TopId(st: State): Option<nat> {
    if st.stack == [] then None else Some(st.stack[|st.stack| - 1].id)
  }

  function Facades(stack: seq<Frame>): seq<string> {
    seq(|stack|, i requires 0 <= i < |stack| => stack[i].name)
  }

  function Write(st: State, r: Trace.Record): State {
    st.(log := st.log + [r])
  }

  function One(cls: Class, mocked: bool): Tally {
    Tally(1, if cls.Mutate? then 1 else 0, if mocked then 1 else 0)
  }

  function BumpFrames(stack: seq<Frame>, t: Tally): seq<Frame> {
    seq(|stack|, i requires 0 <= i < |stack| => stack[i].(tally := stack[i].tally.Plus(t)))
  }

  function Bump(st: State, cls: Class, mocked: bool): State {
    st.(mutations := st.mutations + One(cls, mocked).mutations,
        stack := BumpFrames(st.stack, One(cls, mocked)))
  }

  function Recorded(rec: Outcome): Result<Json, Failure> {
    match rec.error
    case Some(f) => Err(f)
    case None => Ok(rec.output)
  }

  /** `record_mocked`: write a replayed or mocked record, return its outcome. */
  function WriteMocked(st: State, name: string, input: Json, key: Key, rec: Outcome, meta: EffectMeta): State {
    Write(st, Effect(name, st.cell, input, key, rec.output, rec.error, meta, TopId(st)))
  }

  // --- mock consult ---

  datatype Consult = Plain | Serve(slot: Slot) | Miss(policy: MissPolicy)

  function ActiveMock(st: State): Option<MockIndex> {
    if |st.spanMocks| > 0 then Some(st.spanMocks[|st.spanMocks| - 1])
    else if st.mode.Mock? then st.mockIndex
    else None
  }

  function SetActive(st: State, idx: MockIndex): State {
    if |st.spanMocks| > 0 then st.(spanMocks := st.spanMocks[|st.spanMocks| - 1 := idx])
    else st.(mockIndex := Some(idx))
  }

  function ConsultMock(st: State, name: string, key: Key): (State, Consult) {
    if NeverMockable(name) then (st, Plain)
    else
      match ActiveMock(st)
      case None => (st, Plain)
      case Some(idx) =>
        var d := Decide(idx, name, Facades(st.stack));
        if !d.IsMockable() then (SetActive(st, Counted(idx, d)), Plain)
        else
          var (idx', slot) := Take(Counted(idx, d), name, key);
          match slot
          case Some(s) => (SetActive(st, idx'), Serve(s))
          case None => (SetActive(st, idx'), Miss(idx.unmatched))
  }

  // --- strict replay ---

  function Restamp(m: EffectMeta, cls: Class): EffectMeta { m.(mocked := true, cls := cls) }

  /** Write one replayed record through, at the cursor head. */
  function WriteThrough(st: State, name: string, input: Json, key: Key, cls: Class): State
    requires st.cursor.AtRecord() && st.cursor.log[st.cursor.pos].Effect?
  {
    var rec := st.cursor.log[st.cursor.pos];
    WriteMocked(Bump(st.(cursor := st.cursor.Advance()), cls, false), name, input, key,
                Outcome(rec.output, rec.error, None), Restamp(rec.emeta, cls))
  }

  /** Host-emitted records ahead of the one asked for are written through. */
  function Drain(h: Host, st: State, name: string, key: Key): State
    decreases |st.cursor.log| - st.cursor.pos
  {
    if st.cursor.HostedMismatch(name, key) then
      var rec := st.cursor.log[st.cursor.pos];
      Drain(h, WriteThrough(st, rec.name, rec.input, rec.key, Classify(h, rec.name, rec.input)), name, key)
    else st
  }

  function LogRun(st: State, name: string, payload: Json): State {
    st.(ran := st.ran + [Execution(name, payload, st.hosted > 0)])
  }

  function ReplayCall(h: Host, st: State, name: string, payload: Json): (State, Result<Json, Failure>) {
    var key := Key(name, payload);
    var st1 := Drain(h, st, name, key);
    if !st1.cursor.AtEffect(name, key) then
      (st1, Err(DIVERGENCE))
    else
      var rec := st1.cursor.log[st1.cursor.pos];
      var st2 := WriteThrough(st1, name, payload, key, Classify(h, name, payload));
      if rec.error.Some? then (st2, Err(rec.error.value))
      else if name == "blob.read" then (LogRun(st2, name, payload), h.blobRead(payload))
      else (st2, Ok(rec.output))
  }

  // --- the call ---

  /** Nesting rank: a batch call is above its items, http above the refresh it needs. */
  function Rank(name: string, payload: Json): nat {
    if name == "batch" then 2 + Size(payload) else if IsHttp(name) then 1 else 0
  }

  function RecordedOutput(name: string, output: Json): Json {
    if name == "blob.read" then
      Obj([Field("bytes", match Get(output, "bytes") case Some(v) => v case None => Null)])
    else output
  }

  function LiveMeta(h: Host, st: State, payload: Json, cls: Class, unmatched: bool): EffectMeta {
    EffectMeta(
      Some(h.elapsed(|st.log|)), false, cls, st.hosted > 0,
      if st.hosted > 0 then
        match Get(payload, "provider")
        case Some(Str(p)) => Some("connector.oauth." + p)
        case _ => None
      else None,
      if unmatched then Unmatched else Unmocked)
  }

  function WriteLive(h: Host, st: State, name: string, payload: Json, cls: Class, unmatched: bool,
                     r: Result<Json, Failure>): State {
    Write(st, Effect(
      name, st.cell, payload, Key(name, payload),
      if r.Ok? then RecordedOutput(name, r.value) else Null,
      if r.Ok? then None else Some(r.error),
      LiveMeta(h, st, payload, cls, unmatched), TopId(st)))
  }

  function WriteRefusal(st: State, name: string, payload: Json, cls: Class, f: Failure, mark: MockMark): State {
    Write(Bump(st, cls, false), Effect(
      name, st.cell, payload, Key(name, payload), Null, Some(f),
      EffectMeta(None, false, cls, false, None, mark), TopId(st)))
  }

  function Denial(cap: string, name: string): Failure {
    Failure(DENIED, "capability not granted: " + cap + " (effect " + name + ")")
  }

  predicate IsDenied(h: Host, st: State, name: string, payload: Json) {
    st.grants.Some? && st.hosted == 0 && !st.grants.value.Allowed(CapOf(h, name, payload))
  }

  /** One effect call, from the payload the guest handed in. */
  function Call(h: Host, st: State, name: string, given: Json): (State, Result<Json, Failure>)
    decreases Rank(name, given), 3
  {
    var m := if name == "blob.put" then h.materialize(given) else Ok(given);
    match m
    case Err(f) => (st, Err(f))
    case Ok(payload) =>
      var cls := Classify(h, name, payload);
      if IsDenied(h, st, name, payload) then
        var f := Denial(CapOf(h, name, payload), name);
        (WriteRefusal(st, name, payload, cls, f, Unmocked), Err(f))
      else if st.mode.Replay? then
        ReplayCall(h, st, name, payload)
      else
        CallAdmitted(h, st, name, payload, cls)
  }

  /** Past the gate, outside replay: mock consult, else execute and record. */
  function CallAdmitted(h: Host, st: State, name: string, payload: Json, cls: Class): (State, Result<Json, Failure>)
    decreases Rank(name, payload), 2
  {
    var (st1, consult) := ConsultMock(st, name, Key(name, payload));
    match consult
    case Serve(slot) =>
      (WriteMocked(Bump(st1, cls, true), name, payload, Key(name, payload), slot.rec,
                   EffectMeta(None, true, cls, false, None, ServedFrom(slot.provenance))),
       Recorded(slot.rec))
    case Miss(Fail) =>
      (WriteRefusal(st1, name, payload, cls, NoMock(name), Unmatched), Err(NoMock(name)))
    case _ =>
      CallLive(h, st1, name, payload, cls, consult.Miss?)
  }

  function NoMock(name: string): Failure { Failure("mock_unmatched", "no mock for " + name) }

  function CallLive(h: Host, st: State, name: string, payload: Json, cls: Class, unmatched: bool)
      : (State, Result<Json, Failure>)
    decreases Rank(name, payload), 1
  {
    var (st2, r) := Execute(h, Bump(st, cls, false), name, payload);
    (WriteLive(h, st2, name, payload, cls, unmatched, r), r)
  }

  function Execute(h: Host, st: State, name: string, payload: Json): (State, Result<Json, Failure>)
    decreases Rank(name, payload), 0
  {
    var st1 := LogRun(st, name, payload);
    var a := h.answer(|st.ran|, name, payload);
    if IsHttp(name) then
      match a.refresh
      case None => (st1, a.result)
      case Some(provider) =>
        var (st2, r) := CallHosted(h, st1, provider);
        (st2, if r.Err? then r else a.result)
    else if name == "batch" then Batch(h, st1, payload)
    else if name == "oauth.refresh" && st.hosted == 0 then
      (st1, Err(Failure("host_only", "oauth.refresh is host-emitted at credential injection")))
    else if name == "blob.read" then (st1, h.blobRead(payload))
    else if name == "blob.put" then
      (st1, Ok(match Get(payload, "ref") case Some(v) => v case None => Null))
    else if name == "kernel.boot" then (st1, Ok(payload))
    else if Known(name) then (st1, a.result)
    else (st1, Err(Failure(UNKNOWN, "no such effect: " + name)))
  }

  /** A host-emitted refresh: its own record inside the current call. */
  function CallHosted(h: Host, st: State, provider: string): (State, Result<Json, Failure>)
    decreases 0, 4
  {
    assert "oauth.refresh"[0] != "http."[0];
    var (st1, r) := Call(h, st.(hosted := st.hosted + 1), "oauth.refresh",
                         Obj([Field("provider", Str(provider))]));
    (st1.(hosted := st1.hosted - 1), r)
  }

  function ErrorSlot(f: Failure): Json {
    Obj([Field("error", Obj([Field("message", Str(f.message)), Field("type", Str(f.kind))]))])
  }

  function SlotOf(r: Result<Json, Failure>): Json {
    match r
    case Ok(v) => v
    case Err(f) => ErrorSlot(f)
  }

  function Batch(h: Host, st: State, payload: Json): (State, Result<Json, Failure>)
    decreases 1 + Size(payload), 5
  {
    var name, items := GetStr(payload, "name"), GetArr(payload, "payloads");
    if items == [] then (st, Ok(Results([])))
    else
      var (st1, first) := Call(h, st, name, items[0]);
      if first.Err? && first.error.kind == UNKNOWN then
        (st1, Err(Failure(UNKNOWN, "batch fans out host effects only: " + first.error.message)))
      else
        var (st2, rest) := BatchItems(h, st1, name, items[1..]);
        (st2, Ok(Results([SlotOf(first)] + rest)))
  }

  function Results(slots: seq<Json>): Json { Obj([Field("results", Arr(slots))]) }

  function BatchItems(h: Host, st: State, name: string, items: seq<Json>): (State, seq<Json>)
    decreases 2 + SizeItems(items), 4
  {
    if items == [] then (st, [])
    else
      var (st1, r) := Call(h, st, name, items[0]);
      var (st2, rest) := BatchItems(h, st1, name, items[1..]);
      (st2, [SlotOf(r)] + rest)
  }

  // --- spans and cells ---

  datatype Op =
    | Begin(name: string, kind: Option<string>, input: Json)
    | End(ok: bool, output: Json, error: Json)
    | Do(name: string, payload: Json)
    | CellDone(cellId: string, ok: bool, error: Json, interrupted: bool)

  datatype Reply =
    | Value(value: Json)
    | Began(id: nat, served: Option<Served>)
    | Ended(meta: SpanMeta)
    | CellClosed
    | Failed(failure: Failure)

  function ServedOutcome(rec: Outcome): Served {
    Served(if rec.ok.Some? then rec.ok.value else rec.error.None?, rec.output, rec.error)
  }

  function MockSpecOf(input: Json): Option<Json> {
    match Get(input, "mock")
    case Some(Null) => None
    case other => other
  }

  /** A facade may be served whole by the innermost span-scoped index. */
  function ServeSpan(st: State, name: string, key: Key): (State, Option<Slot>) {
    if NeverSubstituted(name) || |st.spanMocks| == 0 then (st, None)
    else
      var idx := st.spanMocks[|st.spanMocks| - 1];
      var d := Decide(idx, name, Facades(st.stack));
      if !d.IsMockable() then (SetActive(st, Counted(idx, d)), None)
      else
        var (idx', slot) := Take(Counted(idx, d), name, key);
        (SetActive(st, idx'), slot)
  }

  function PushSpan(st: State, name: string, kind: Option<string>, input: Json, ownsMock: bool,
                    slot: Option<Slot>): State {
    var served := match slot
      case Some(s) => Some((ServedOutcome(s.rec), s.provenance))
      case None => None;
    Write(st, SpanBegin(st.spanN, name, st.cell, input, Key(name, input), TopId(st)))
      .(stack := st.stack + [Frame(st.spanN, name, kind, ZERO, ownsMock, served)])
  }

  /** The index of a spec: a run names itself by its own id, and then it is the records
      so far; the others come from the store. */
  function BuildMock(h: Host, spec: Json, log: seq<Trace.Record>): Result<MockIndex, string> {
    Build(spec, Runs(h.runId, log, h.runs))
  }

  function BeginSpan(h: Host, st: State, name: string, kind: Option<string>, input: Json): (State, Reply) {
    var st1 := st.(spanN := st.spanN + 1);
    if st.mode.Replay? then
      if !st.cursor.AtBegin(name, Key(name, input)) then (st1, Failed(DIVERGENCE))
      else OpenSpan(h, st1.(cursor := st1.cursor.Advance()), name, kind, input)
    else OpenSpan(h, st1, name, kind, input)
  }

  function OpenSpan(h: Host, st: State, name: string, kind: Option<string>, input: Json): (State, Reply) {
    match MockSpecOf(input)
    case Some(spec) =>
      (match BuildMock(h, spec, st.log)
       case Err(message) => (st, Failed(Failure("mock_spec", message)))
       case Ok(idx) =>
         (PushSpan(st.(spanMocks := st.spanMocks + [idx]), name, kind, input, true, None),
          Began(st.spanN, None)))
    case None =>
      var (st1, slot) := ServeSpan(st, name, Key(name, input));
      (PushSpan(st1, name, kind, input, false, slot),
       Began(st.spanN, match slot case Some(s) => Some(ServedOutcome(s.rec)) case None => None))
  }

  /** The end record's meta, from the closing frame. */
  function EndMeta(h: Host, st: State, top: Frame): SpanMeta {
    SpanMeta(
      h.elapsed(|st.log|), top.tally.effects, top.tally.mutations, top.tally.mocked,
      if top.ownsMock && |st.spanMocks| > 0 then Hits(st.spanMocks[|st.spanMocks| - 1]) else None,
      match top.served case Some(s) => Some(s.1) case None => None,
      top.kind)
  }

  function EndSpan(h: Host, st: State, ok: bool, output: Json, error: Json): (State, Reply) {
    if st.stack == [] then
      (st, Failed(Failure("no_open_span", "span.end without span.begin")))
    else
      var top := st.stack[|st.stack| - 1];
      var st1 := st.(stack := st.stack[..|st.stack| - 1]);
      if st.mode.Replay? then
        if !st.cursor.AtEnd(top.name, ok) then (st1, Failed(DIVERGENCE))
        else CloseSpan(h, st1.(cursor := st1.cursor.Advance()), top, ok, output, error)
      else CloseSpan(h, st1, top, ok, output, error)
  }

  /** The frame `top` has been popped: drop its mock, count a served span, record. */
  function CloseSpan(h: Host, st: State, top: Frame, ok: bool, output: Json, error: Json): (State, Reply) {
    var meta := EndMeta(h, st, top);
    var st1 := if top.ownsMock && |st.spanMocks| > 0
               then st.(spanMocks := st.spanMocks[..|st.spanMocks| - 1]) else st;
    var st2 := if top.served.Some? then Bump(st1, Read, true) else st1;
    (Write(st2, SpanEnd(top.id, top.name, st.cell, ok, output, error, meta)), Ended(meta))
  }

  function UnclosedSpan(cell: string): Json {
    Obj([Field("message", Str("cell " + cell + " ended with span open")), Field("type", Str("unclosed_span"))])
  }

  /** A trapped cell skips the guest's own ends: close every open span. */
  function CloseAll(h: Host, st: State, cell: string): (State, Option<Failure>)
    decreases |st.stack|
  {
    if st.stack == [] then (st, None)
    else
      var (st1, r) := EndSpan(h, st, false, Null, UnclosedSpan(cell));
      if r.Failed? then (st1, Some(r.failure)) else CloseAll(h, st1, cell)
  }

  function FinishCell(h: Host, st: State, cell: string, ok: bool, error: Json, interrupted: bool): (State, Reply) {
    var (st1, failure) := CloseAll(h, st, cell);
    if failure.Some? then (st1, Failed(failure.value))
    else if st.mode.Replay? && !st1.cursor.AtCell(cell, ok) then (st1, Failed(DIVERGENCE))
    else
      var st2 := if st.mode.Replay? then st1.(cursor := st1.cursor.Advance()) else st1;
      (Write(st2, Cell(cell, ok, error, interrupted)), CellClosed)
  }

  function ReplyOf(r: Result<Json, Failure>): Reply {
    match r
    case Ok(v) => Value(v)
    case Err(f) => Failed(f)
  }

  function Step(h: Host, st: State, op: Op): (State, Reply) {
    match op
    case Begin(name, kind, input) => BeginSpan(h, st, name, kind, input)
    case End(ok, output, error) => EndSpan(h, st, ok, output, error)
    case Do(name, payload) =>
      var (st1, r) := Call(h, st, name, payload);
      (st1, ReplyOf(r))
    case CellDone(cell, ok, error, interrupted) => FinishCell(h, st, cell, ok, error, interrupted)
  }

  /** A broker before its first operation. */
  predicate Fresh(st: State) {
    && st.log == [] && st.ran == [] && st.stack == [] && st.spanMocks == []
    && st.mutations == 0 && st.hosted == 0 && st.spanN == 0 && st.cursor.pos == 0
  }

  function StepAll(h: Host, st: State, ops: seq<Op>): State {
    if ops == [] then st
    else Step(h, StepAll(h, st, ops[..|ops| - 1]), ops[|ops| - 1]).0
  }
}
