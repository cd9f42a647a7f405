/** One concrete run for every way a trace can fail to replay its run: what a guest may
    read that does not come back, the steps a replay cannot give back, and a foreign effect
    that is served. */
module ReplayLimits {
  import opened Options
  import opened Json
  import opened Trace
  import opened Mocks
  import opened MockSpecs
  import opened Pipeline
  import opened Caps
  import opened FanOut
  import opened Shadows
  import opened CallRecords
  import opened Replaying
  import opened ReplayRuns
  import opened Divergence
  import Globs
  import Reentry

  // --- durations ---

  /** A world that answers everything the same way, with a clock of its own. */
  function QuietHost(elapsed: nat -> nat): Host {
    Host((v, u) => false, (v, u) => "net.http", p => Ok(p), "run_a", run => Err("no such run"), p => Ok(Null),
         (n, name, p) => Answer(None, Ok(Null)), elapsed)
  }

  function Blank(mode: Mode, log: seq<Trace.Record>): State {
    State(mode, None, Cursor(log, 0), None, [], None, 0, 0, [], 0, [], [])
  }

  /** A guest that opens a span, closes it, and acts on how long it took. */
  function ClockWatcher(replies: seq<Reply>): Op {
    if |replies| == 0 then Begin("span", None, Null)
    else if |replies| == 1 then End(true, Null, Null)
    else if replies[1].Ended? && replies[1].meta.durMs == 0 then Do("time.now", Null)
    else Do("uuid4", Null)
  }

  /** The watcher's first two steps, recording or replaying. */
  lemma WatchedSpan(h: Host, st: State)
    requires st == Blank(st.mode, st.cursor.log) && !st.mode.Mock?
    requires st.mode.Replay? ==>
      && |st.cursor.log| >= 2 && st.cursor.AtBegin("span", Key("span", Null))
      && st.cursor.Advance().AtEnd("span", true)
    ensures var b := Go(h, st, ClockWatcher, 2);
            && |b.st.log| == 2 && b.st.log[0].SpanBegin? && b.st.log[0].name == "span"
            && b.st.log[0].key == Key("span", Null)
            && b.st.log[1].SpanEnd? && b.st.log[1].name == "span" && b.st.log[1].ok
            && b.replies[1].Ended? && b.replies[1].meta.durMs == h.elapsed(1)
            && b.st.mode == st.mode && b.st.grants.None? && b.st.spanMocks == [] && b.st.hosted == 0
            && b.st.ran == [] && b.st.cursor.log == st.cursor.log
            && (st.mode.Replay? ==> b.st.cursor.pos == 2)
  {
    var b1 := Go(h, st, ClockWatcher, 1);
    assert Go(h, st, ClockWatcher, 0) == Run(st, []);
    assert b1.replies == [Began(1, None)];
    var f := Frame(1, "span", None, ZERO, false, None);
    assert b1.st.stack == [f];
    assert |b1.st.log| == 1 && b1.st.log[0].SpanBegin?;
    assert Go(h, st, ClockWatcher, 2).st == Step(h, b1.st, End(true, Null, Null)).0;
  }

  /** Replay is not bit-exact for a guest that reads the duration `span.end`
      replies with: the same guest on its own trace diverges. */
  lemma ClockWatcherDiverges()
    ensures var fast, slow := QuietHost(n => 0), QuietHost(n => 1);
            var log := Go(fast, Blank(Record, []), ClockWatcher, 3).st.log;
            && Go(fast, Blank(Record, []), ClockWatcher, 3).replies[2] == Value(Null)
            && Go(slow, Blank(Replay, log), ClockWatcher, 3).replies[2] == Failed(DIVERGENCE)
  {
    hide BeginSpan, EndSpan, Call;
    var fast, slow := QuietHost(n => 0), QuietHost(n => 1);
    var rec := Blank(Record, []);
    WatchedSpan(fast, rec);
    var a := Go(fast, rec, ClockWatcher, 2);
    TimeNowIsLive(fast, a.st);
    var log := Go(fast, rec, ClockWatcher, 3).st.log;
    var rep := Blank(Replay, log);
    WatchedSpan(slow, rep);
    var b := Go(slow, rep, ClockWatcher, 2);
    assert log[2].name == "time.now" && log[2].Effect? && !log[2].emeta.hosted;
    assert |"time.now"| != |"uuid4"| && |"uuid4"| != |"blob.put"|;
    assert HeadFor(b.st.cursor, "uuid4", Key("uuid4", Null)) == b.st.cursor;
    UnmetDiverges(slow, b.st, Do("uuid4", Null));
  }

  lemma TimeNowRuns(h: Host, st: State)
    requires h.answer(|st.ran|, "time.now", Null) == Answer(None, Ok(Null))
    ensures Execute(h, st, "time.now", Null) == (LogRun(st, "time.now", Null), Ok(Null))
  {
    hide CallHosted, Batch;
    assert "time.now"[0] != "http."[0] && |"time.now"| != |"kernel.boot"|;
    assert |"time.now"| != |"blob.read"| && |"time.now"| != |"batch"|;
    assert "time.now"[0] != "blob.put"[0] && |"time.now"| != |"oauth.refresh"|;
  }

  lemma TimeNowIsLive(h: Host, st: State)
    requires st.mode.Record? && st.spanMocks == [] && st.grants.None?
    requires h.answer(|st.ran|, "time.now", Null) == Answer(None, Ok(Null))
    ensures var (st', reply) := Step(h, st, Do("time.now", Null));
            && reply == Value(Null) && |st'.log| == |st.log| + 1 && st.log <= st'.log
            && st'.log[|st.log|].Effect? && st'.log[|st.log|].name == "time.now"
            && !st'.log[|st.log|].emeta.hosted == (st.hosted <= 0)
  {
    hide CallAdmitted, ConsultMock, Execute, BeginSpan, EndSpan, FinishCell, Bump;
    assert "time.now"[0] != "http."[0] && "time.now"[0] != "blob.put"[0] && |"time.now"| != |"blob.read"|;
    var cls := Classify(h, "time.now", Null);
    Reentry.PlainlyLive(h, st, "time.now", Null, cls);
    BumpOnlyCounts(st, cls);
    TimeNowRuns(h, Bump(st, cls, false));
  }

  lemma BumpOnlyCounts(st: State, cls: Class)
    ensures var up := Bump(st, cls, false); up == st.(mutations := up.mutations, stack := up.stack)
  {
  }

  // --- mock filters ---

  /** An index that admits every name, holds nothing and lets misses run live. */
  const OPEN_INDEX := MockIndex(map[], ["*"], [], Live, 0, 0, [])

  const OPEN_SPEC := Obj([Field("only", Str("*")), Field("unmatched", Str("live"))])

  function Under(spec: Json): Json { Obj([Field("mock", spec)]) }

  lemma OpenSpecBuilds(h: Host, log: seq<Trace.Record>)
    ensures BuildMock(h, OPEN_SPEC, log) == Ok(OPEN_INDEX)
  {
    var only, unmatched := Field("only", Str("*")), Field("unmatched", Str("live"));
    assert [only, unmatched][1..] == [unmatched] && [unmatched][1..] == [];
    assert |"only"| == |"from"| == 4 && "only"[0] != "from"[0] && |"unmatched"| == 9 && |"except"| == 6
        && |"records"| == 7;
    assert Lookup([unmatched], "from") == Lookup([unmatched], "records") == Lookup([unmatched], "except") == None;
    assert Lookup([unmatched], "unmatched") == Some(Str("live"));
    assert OPEN_SPEC.fields == [only, unmatched];
    assert Lookup(OPEN_SPEC.fields, "from") == Lookup(OPEN_SPEC.fields, "records") == Lookup(OPEN_SPEC.fields,
        "except") == None;
    assert Lookup(OPEN_SPEC.fields, "only") == Some(Str("*")) && Lookup(OPEN_SPEC.fields,
        "unmatched") == Some(Str("live"));
    assert |"live"| == |"fail"| && "live"[0] != "fail"[0];
    assert Parse(OPEN_SPEC) == Ok(Spec([], ["*"], [], [], Live)) by { hide Lookup; }
    hide Parse;
    var runs := Runs(h.runId, log, h.runs);
    assert FoldAll(Inline([]), [], runs) == map[] && Missing([], runs) == None && Zeros(0) == [];
  }

  /** A guest that runs one effect under a span-scoped mock. */
  function FilterUser(spec: Json): Guest {
    (replies: seq<Reply>) =>
      if |replies| == 0 then Begin("span", None, Under(spec))
      else if |replies| == 1 then Do("uuid4", Null)
      else End(true, Null, Null)
  }

  lemma StarMatchesAll(s: string)
    ensures Globs.Matches("*", s)
  {
    assert "*"[1..] == "" && s[|s|..] == "";
    assert Globs.Matches("", s[|s|..]);
  }

  lemma UuidIsPlain()
    ensures !IsHttp("uuid4") && "uuid4" !in {"batch", "oauth.refresh", "blob.read", "blob.put", "kernel.boot"}
    ensures !NeverMockable("uuid4") && Known("uuid4")
  {
    assert "uuid4"[0] == 'u';
    assert "http."[0] == 'h' && "batch"[0] == 'b' && "oauth.refresh"[0] == 'o' && "blob.read"[0] == 'b';
    assert "blob.put"[0] == 'b' && "kernel.boot"[0] == 'k' && "span."[0] == 's' && "trace."[0] == 't';
    assert "module.resolve"[0] == 'm' && "runtime.get"[0] == 'r' && "mailbox.drain"[0] == 'm' && "fuel.state"[0] == 'f';
  }

  /** Inside the guest's span: its frame on the stack and its index on the mock stack. */
  predicate InSpan(st: State, idx: MockIndex) {
    && st.spanMocks == [idx] && st.grants.None? && st.hosted == 0
    && |st.stack| == 1 && st.stack[0] == Frame(1, "span", None, st.stack[0].tally, true, None)
  }

  lemma SpanOpens(h: Host, st: State, spec: Json, idx: MockIndex)
    requires st == Blank(st.mode, st.cursor.log) && !st.mode.Mock? && spec != Null
    requires st.mode.Replay? ==> st.cursor.AtBegin("span", Key("span", Under(spec)))
    requires BuildMock(h, spec, []) == Ok(idx)
    ensures var (st', reply) := Step(h, st, Begin("span", None, Under(spec)));
            && InSpan(st', idx) && st'.mode == st.mode && st'.stack[0].tally == ZERO && reply == Began(1, None)
            && |st'.log| == 1 && st'.log[0] == SpanBegin(1, "span", None, Under(spec), Key("span", Under(spec)), None)
            && st'.cursor == if st.mode.Replay? then st.cursor.Advance() else st.cursor
  {
    hide Call, CallAdmitted, EndSpan, FinishCell, BuildMock;
    assert MockSpecOf(Under(spec)) == Some(spec);
    SpecBeginIs(h, st, "span", None, Under(spec), idx);
  }

  lemma EffectAdmitted(st: State)
    requires InSpan(st, OPEN_INDEX) && st.mode.Record?
    ensures ConsultMock(st, "uuid4", Key("uuid4", Null)) ==
            (st.(spanMocks := [OPEN_INDEX.(onlyHits := 1)]), Miss(Live))
  {
    UuidIsPlain();
    StarMatchesAll("uuid4");
    assert Hit(OPEN_INDEX.only, "uuid4", Facades(st.stack)) by { assert "*" in OPEN_INDEX.only; }
    assert Decide(OPEN_INDEX, "uuid4", Facades(st.stack)) == Admitted;
    assert [OPEN_INDEX][0 := OPEN_INDEX.(onlyHits := 1)] == [OPEN_INDEX.(onlyHits := 1)];
  }

  /** Recording, the effect goes through the filter, and counts. */
  lemma RecordedUse(h: Host, st: State)
    requires InSpan(st, OPEN_INDEX) && st.mode.Record?
    ensures var st' := Step(h, st, Do("uuid4", Null)).0;
            && InSpan(st', OPEN_INDEX.(onlyHits := 1)) && st'.mode.Record?
            && |st'.log| == |st.log| + 1 && st.log <= st'.log
            && st'.log[|st.log|].Effect? && st'.log[|st.log|].name == "uuid4"
                && st'.log[|st.log|].key == Key("uuid4", Null)
  {
    hide CallAdmitted, ConsultMock, BeginSpan, EndSpan, FinishCell, Execute;
    UuidIsPlain();
    EffectAdmitted(st);
    var st1 := st.(spanMocks := [OPEN_INDEX.(onlyHits := 1)]);
    var cls := Classify(h, "uuid4", Null);
    assert CallAdmitted(h, st, "uuid4", Null, cls) == CallLive(h, st1, "uuid4", Null, cls, true) by { MissRunsLive(h,
        st, st1, cls); }
    UuidRuns(h, Bump(st1, cls, false));
  }

  lemma MissRunsLive(h: Host, st: State, st1: State, cls: Class)
    requires ConsultMock(st, "uuid4", Key("uuid4", Null)) == (st1, Miss(Live))
    ensures CallAdmitted(h, st, "uuid4", Null, cls) == CallLive(h, st1, "uuid4", Null, cls, true)
  {
    hide ConsultMock, CallLive;
  }

  lemma UuidRuns(h: Host, st: State)
    ensures Execute(h, st, "uuid4", Null).0 == LogRun(st, "uuid4", Null)
  {
    hide CallHosted, Batch;
    UuidIsPlain();
  }

  /** Replaying, it is served by the cursor, and the filter never sees it. */
  lemma ReplayedUse(h: Host, st: State)
    requires InSpan(st, OPEN_INDEX) && st.mode.Replay? && st.cursor.AtEffect("uuid4", Key("uuid4", Null))
    ensures var st' := Step(h, st, Do("uuid4", Null)).0;
            InSpan(st', OPEN_INDEX) && st'.mode.Replay? && st'.cursor == st.cursor.Advance()
  {
    hide CallAdmitted, BeginSpan, EndSpan, FinishCell;
    UuidIsPlain();
    assert Drain(h, st, "uuid4", Key("uuid4", Null)) == st;
  }

  lemma FilterSpanEnds(h: Host, st: State, idx: MockIndex)
    requires InSpan(st, idx) && (st.mode.Replay? ==> st.cursor.AtEnd("span", true))
    ensures var (st', reply) := Step(h, st, End(true, Null, Null));
            && reply.Ended? && reply.meta.mockFilter == Hits(idx)
            && |st'.log| == |st.log| + 1 && st.log <= st'.log
            && st'.log[|st.log|].SpanEnd? && st'.log[|st.log|].name == "span" && st'.log[|st.log|].ok
  {
    hide Call, BeginSpan, FinishCell, Hits;
  }

  /** The `mockFilter` counts a span's end replies with count consults, and a replay
      consults nothing: the same guest, world and clock, and a different reply. */
  lemma FilterHitsAreNotReplayed()
    ensures var h, g := QuietHost(n => 0), FilterUser(OPEN_SPEC);
            var log := Go(h, Blank(Record, []), g, 3).st.log;
            var a, b := Go(h, Blank(Record, []), g, 3).replies[2], Go(h, Blank(Replay, log), g, 3).replies[2];
            && a.Ended? && a.meta.mockFilter == Some(FilterHits(Some(1), None, []))
            && b.Ended? && b.meta.mockFilter == Some(FilterHits(Some(0), None, []))
  {
    hide Step, Hits, BuildMock;
    var h, g, rec := QuietHost(n => 0), FilterUser(OPEN_SPEC), Blank(Record, []);
    OpenSpecBuilds(h, []);
    SpanOpens(h, rec, OPEN_SPEC, OPEN_INDEX);
    var r1 := Step(h, rec, Begin("span", None, Under(OPEN_SPEC))).0;
    RecordedUse(h, r1);
    var r2 := Step(h, r1, Do("uuid4", Null)).0;
    FilterSpanEnds(h, r2, OPEN_INDEX.(onlyHits := 1));
    ThreeSteps(h, rec, OPEN_SPEC);
    var log := Go(h, rec, g, 3).st.log;
    var rep := Blank(Replay, log);
    SpanOpens(h, rep, OPEN_SPEC, OPEN_INDEX);
    var p1 := Step(h, rep, Begin("span", None, Under(OPEN_SPEC))).0;
    ReplayedUse(h, p1);
    var p2 := Step(h, p1, Do("uuid4", Null)).0;
    FilterSpanEnds(h, p2, OPEN_INDEX);
    ThreeSteps(h, rep, OPEN_SPEC);
    HitsOfOpenIndex(0);
    HitsOfOpenIndex(1);
  }

  lemma HitsOfOpenIndex(n: nat)
    ensures Hits(OPEN_INDEX.(onlyHits := n)) == Some(FilterHits(Some(n), None, []))
  {
  }

  lemma ThreeSteps(h: Host, st: State, spec: Json)
    ensures var one := Step(h, st, Begin("span", None, Under(spec))).0;
            var two := Step(h, one, Do("uuid4", Null)).0;
            var three := Step(h, two, End(true, Null, Null));
            Go(h, st, FilterUser(spec), 3).st == three.0 && Go(h, st, FilterUser(spec), 3).replies[2] == three.1
  {
    hide Step;
    assert Go(h, st, FilterUser(spec), 0) == Run(st, []);
    var one, two := Go(h, st, FilterUser(spec), 1), Go(h, st, FilterUser(spec), 2);
    assert |one.replies| == 1 && |two.replies| == 2;
  }

  // --- answers ---

  /** What one record of a stored run answers. */
  function Answering(output: Json): Slot { From("run_b", output, None, None) }

  /** One queued answer for one call, everything mockable. */
  function OneAnswer(name: string, input: Json, output: Json, unmatched: MissPolicy): MockIndex {
    MockIndex(map[(name, Exact(Key(name, input))) := [Answering(output)]], [], [], unmatched, 0, 0, [])
  }

  function Spent(name: string, input: Json, unmatched: MissPolicy): MockIndex {
    MockIndex(map[(name, Exact(Key(name, input))) := []], [], [], unmatched, 0, 0, [])
  }

  lemma AnswerTaken(name: string, input: Json, output: Json, unmatched: MissPolicy)
    ensures Take(OneAnswer(name, input, output, unmatched), name, Key(name, input)) ==
            (Spent(name, input, unmatched), Some(Answering(output)))
    ensures Take(Spent(name, input, unmatched), name, Key(name, input)) == (Spent(name, input, unmatched), None)
  {
    var idx := OneAnswer(name, input, output, unmatched);
    var k := (name, Exact(Key(name, input)));
    assert idx.queues[k := []] == map[k := []];
  }

  lemma NoFilter(name: string, input: Json, output: Json, unmatched: MissPolicy, effect: string, facades: seq<string>)
    requires !NeverMockable(effect)
    ensures Decide(OneAnswer(name, input, output, unmatched), effect, facades) == Mockable
    ensures Decide(Spent(name, input, unmatched), effect, facades) == Mockable
  {
  }

  /** A world whose store has one run, of one uuid4. */
  function AnswerHost(): Host { QuietHost(n => 0).(runs := Stored("run_b", [UUID])) }

  function Stored(id: string, log: seq<Trace.Record>): string -> Result<seq<Trace.Record>, string> {
    (run: string) => if run == id then Ok(log) else Err("no such run")
  }

  const UUID := Effect("uuid4", None, Null, Key("uuid4", Null), Null, None,
                       EffectMeta(None, false, Read, false, None, Unmocked), None)

  lemma EnqueuedFirst(name: string, key: Key, slot: Slot)
    ensures Enqueue(map[], name, Exact(key), slot) == map[(name, Exact(key)) := [slot]]
  {
    assert [] + [slot] == [slot];
  }

  lemma AnswerSpecBuilds(log: seq<Trace.Record>)
    ensures BuildMock(AnswerHost(), Str("run_b"), log) == Ok(OneAnswer("uuid4", Null, Null, Fail))
  {
    hide Build;
    assert "run_b"[4] == 'b' && "run_a"[4] == 'a';
    assert ValidRunId("run_b") by { assert "run_b"[..4] == "run_"; }
    RunIdBuilds("run_b", Runs("run_a", log, AnswerHost().runs), [UUID]);
    assert [UUID][..0] == [];
    assert FoldRun(map[], [UUID], "run_b") == FoldOne(FoldRun(map[], [], "run_b"), UUID, "run_b");
    EnqueuedFirst("uuid4", Key("uuid4", Null), Answering(Null));
  }

  lemma RecordedAnswer(h: Host, st: State)
    requires InSpan(st, OneAnswer("uuid4", Null, Null, Fail)) && st.mode.Record? && st.stack[0].tally == ZERO
    ensures var st' := Step(h, st, Do("uuid4", Null)).0;
            && InSpan(st', Spent("uuid4", Null, Fail)) && st'.mode.Record? && st'.stack[0].tally.mocked == 1
            && |st'.log| == |st.log| + 1 && st.log <= st'.log
            && st'.log[|st.log|].Effect? && st'.log[|st.log|].name == "uuid4"
                && st'.log[|st.log|].key == Key("uuid4", Null)
  {
    hide BeginSpan, EndSpan, FinishCell, CallLive, ConsultMock, OneAnswer, Spent, WriteMocked, Bump, Classify;
    NotBlobPut(h, st);
    SpanAnswers(st);
    var cls := Classify(h, "uuid4", Null);
    var st1 := st.(spanMocks := [Spent("uuid4", Null, Fail)]);
    var end := CallAdmitted(h, st, "uuid4", Null, cls);
    assert Call(h, st, "uuid4", Null) == end;
    AnswerWritten(st, cls, Spent("uuid4", Null, Fail));
  }

  lemma NotBlobPut(h: Host, st: State)
    requires InSpan(st, OneAnswer("uuid4", Null, Null, Fail))
    ensures "uuid4" != "blob.put" && !IsDenied(h, st, "uuid4", Null)
  {
    assert |"uuid4"| != |"blob.put"|;
  }

  lemma AnswerWritten(st: State, cls: Class, spent: MockIndex)
    requires st.mode.Record? && st.grants.None? && st.hosted == 0 && |st.stack| == 1
    requires st.stack[0] == Frame(1, "span", None, ZERO, true, None)
    ensures var st' := WriteMocked(Bump(st.(spanMocks := [spent]), cls, true), "uuid4", Null, Key("uuid4", Null),
        Answering(Null).rec,
                                   EffectMeta(None, true, cls, false, None, ServedFrom(Answering(Null).provenance)));
            && InSpan(st', spent) && st'.mode.Record? && st'.stack[0].tally.mocked == 1
            && |st'.log| == |st.log| + 1 && st.log <= st'.log
            && st'.log[|st.log|].Effect? && st'.log[|st.log|].name == "uuid4"
                && st'.log[|st.log|].key == Key("uuid4", Null)
  {
  }

  lemma SpanAnswers(st: State)
    requires InSpan(st, OneAnswer("uuid4", Null, Null, Fail))
    ensures ConsultMock(st, "uuid4", Key("uuid4", Null)) ==
            (st.(spanMocks := [Spent("uuid4", Null, Fail)]), Serve(Answering(Null)))
  {
    hide OneAnswer, Spent, Decide, Take, NeverMockable;
    UuidIsPlain();
    AnswerTaken("uuid4", Null, Null, Fail);
    NoFilter("uuid4", Null, Null, Fail, "uuid4", Facades(st.stack));
    var idx := OneAnswer("uuid4", Null, Null, Fail);
    assert Counted(idx, Mockable) == idx;
    assert [idx][0 := Spent("uuid4", Null, Fail)] == [Spent("uuid4", Null, Fail)];
  }

  lemma ReplayedAnswer(h: Host, st: State, idx: MockIndex)
    requires InSpan(st, idx) && st.mode.Replay? && st.cursor.AtEffect("uuid4", Key("uuid4", Null))
        && st.stack[0].tally == ZERO
    ensures var st' := Step(h, st, Do("uuid4", Null)).0;
            InSpan(st', idx) && st'.mode.Replay? && st'.cursor == st.cursor.Advance() && st'.stack[0].tally.mocked == 0
  {
    hide CallAdmitted, BeginSpan, EndSpan, FinishCell;
    UuidIsPlain();
    assert Drain(h, st, "uuid4", Key("uuid4", Null)) == st;
  }

  lemma AnsweredSpanEnds(h: Host, st: State, idx: MockIndex)
    requires InSpan(st, idx) && (st.mode.Replay? ==> st.cursor.AtEnd("span", true))
    ensures var (st', reply) := Step(h, st, End(true, Null, Null));
            && reply.Ended? && reply.meta.mocked == st.stack[0].tally.mocked && reply.meta.mockFilter == Hits(idx)
            && |st'.log| == |st.log| + 1 && st.log <= st'.log
            && st'.log[|st.log|].SpanEnd? && st'.log[|st.log|].name == "span" && st'.log[|st.log|].ok
  {
    hide Call, BeginSpan, FinishCell, Hits;
  }

  lemma NoHitsWithoutFilter(name: string, input: Json, output: Json, unmatched: MissPolicy)
    ensures Hits(OneAnswer(name, input, output, unmatched)) == None && Hits(Spent(name, input, unmatched)) == None
  {
  }

  /** The `mocked` count in the same reply: an answer from the mock counts when recorded
      and not when replayed, with no filter at all. */
  lemma MockedCountIsNotReplayed()
    ensures var h, g := AnswerHost(), FilterUser(Str("run_b"));
            var log := Go(h, Blank(Record, []), g, 3).st.log;
            var a, b := Go(h, Blank(Record, []), g, 3).replies[2], Go(h, Blank(Replay, log), g, 3).replies[2];
            && a.Ended? && a.meta.mocked == 1 && a.meta.mockFilter == None
            && b.Ended? && b.meta.mocked == 0 && b.meta.mockFilter == None
  {
    hide Step, Hits, OneAnswer, Spent, BuildMock;
    var spec := Str("run_b");
    var h, g, rec := AnswerHost(), FilterUser(spec), Blank(Record, []);
    NoHitsWithoutFilter("uuid4", Null, Null, Fail);
    AnswerSpecBuilds([]);
    SpanOpens(h, rec, spec, OneAnswer("uuid4", Null, Null, Fail));
    var r1 := Step(h, rec, Begin("span", None, Under(spec))).0;
    RecordedAnswer(h, r1);
    var r2 := Step(h, r1, Do("uuid4", Null)).0;
    AnsweredSpanEnds(h, r2, Spent("uuid4", Null, Fail));
    ThreeSteps(h, rec, spec);
    var log := Go(h, rec, g, 3).st.log;
    var rep := Blank(Replay, log);
    SpanOpens(h, rep, spec, OneAnswer("uuid4", Null, Null, Fail));
    var p1 := Step(h, rep, Begin("span", None, Under(spec))).0;
    ReplayedAnswer(h, p1, OneAnswer("uuid4", Null, Null, Fail));
    var p2 := Step(h, p1, Do("uuid4", Null)).0;
    AnsweredSpanEnds(h, p2, OneAnswer("uuid4", Null, Null, Fail));
    ThreeSteps(h, rep, spec);
  }

  // --- one step is enough ---

  /** A guest that does one thing. */
  function Once(op: Op): Guest { (replies: seq<Reply>) => op }

  lemma OneStep(h: Host, st: State, op: Op)
    ensures Go(h, st, Once(op), 1).st == Step(h, st, op).0 && Go(h, st, Once(op), 1).replies == [Step(h, st, op).1]
  {
    hide Step;
    assert Go(h, st, Once(op), 0) == Run(st, []);
  }

  // --- fan-out ---

  const BATCH := Obj([Field("name", Str("uuid4")), Field("payloads", Arr([Null]))])

  lemma BatchOfOne()
    ensures GetStr(BATCH, "name") == "uuid4" && GetArr(BATCH, "payloads") == [Null]
  {
    assert |"name"| != |"payloads"|;
  }

  /** A batch of one effect: its item is recorded before it, and the cursor meets that. */
  lemma FanOutIsNotReplayed()
    ensures var h, op := QuietHost(n => 0), Do("batch", BATCH);
            var log := Go(h, Blank(Record, []), Once(op), 1).st.log;
            && Go(h, Blank(Record, []), Once(op), 1).replies[0] != Failed(DIVERGENCE)
            && Go(h, Blank(Replay, log), Once(op), 1).replies[0] == Failed(DIVERGENCE)
  {
    hide Call, ConsultMock, NoneMaterialises;
    var h, op := QuietHost(n => 0), Do("batch", BATCH);
    var rec := Blank(Record, []);
    OneStep(h, rec, op);
    var log := Go(h, rec, Once(op), 1).st.log;
    BatchIsItsOwn();
    BatchOfOne();
    UuidIsPlain();
    ItemMaterialises(h);
    PlainBatchIsAlone(h, rec, BATCH);
    var inner := BatchFansOut(h, rec, BATCH);
    var rep := Blank(Replay, log);
    OneStep(h, rep, op);
    WithItemsDiverges(h, [], rep, log, BATCH, inner);
    UnmetDiverges(h, rep, op);
  }

  lemma ItemMaterialises(h: Host)
    ensures !NoneMaterialises(h, "uuid4", [Null])
  {
    UuidIsPlain();
    assert Materialises(h, "uuid4", [Null][0]);
  }

  // --- a spec that does not build ---

  /** A begin with a bad spec is refused as `mock_spec` and leaves no record; on replay it is
      refused for that. */
  lemma BadSpecIsNotReplayed()
    ensures var h, op := QuietHost(n => 0), Begin("span", None, Under(Str("everything")));
            var log := Go(h, Blank(Record, []), Once(op), 1).st.log;
            && Go(h, Blank(Record, []), Once(op), 1).replies[0] == Failed(Failure("mock_spec",
                "mock.from: not a run id"))
            && Go(h, Blank(Replay, log), Once(op), 1).replies[0] == Failed(DIVERGENCE)
  {
    hide Call, EndSpan, FinishCell, BuildMock;
    var h, op := QuietHost(n => 0), Begin("span", None, Under(Str("everything")));
    NoRunId(h, []);
    assert MockSpecOf(Under(Str("everything"))) == Some(Str("everything"));
    OneStep(h, Blank(Record, []), op);
    OneStep(h, Blank(Replay, []), op);
  }

  lemma NoRunId(h: Host, log: seq<Trace.Record>)
    ensures BuildMock(h, Str("everything"), log) == Err("mock.from: not a run id")
  {
    var fields := [Field("from", Str("everything"))];
    assert Lookup(fields, "from") == Some(Str("everything"));
    assert !ValidRunId("everything") by { assert "everything"[0] != "run_"[0]; }
    assert "everything" in ["everything"];
  }

  // --- Mock mode ---

  function Mocked(idx: MockIndex): State { Blank(Mock, []).(mockIndex := Some(idx)) }

  lemma BlobReadIsPlain()
    ensures !IsHttp("blob.read") && "blob.read" !in {"batch", "oauth.refresh", "blob.put", "kernel.boot"}
    ensures !NeverMockable("blob.read")
  {
    assert "blob.read"[0] == 'b' && "http."[0] == 'h' && |"blob.read"| != |"batch"|
        && |"blob.read"| != |"oauth.refresh"|;
    assert |"blob.read"| != |"blob.put"| && |"blob.read"| != |"kernel.boot"|;
    assert "span."[0] == 's' && "trace."[0] == 't' && "module.resolve"[0] == 'm' && "runtime.get"[0] == 'r';
    assert "mailbox.drain"[0] == 'm' && "fuel.state"[0] == 'f' && "kernel.boot"[0] == 'k';
  }

  lemma ConsultAnswers(idx: MockIndex, spent: MockIndex, name: string, payload: Json, output: Json)
    requires !NeverMockable(name) && Decide(idx, name, []) == Mockable
    requires Take(idx, name, Key(name, payload)) == (spent, Some(Answering(output)))
    ensures ConsultMock(Mocked(idx), name, Key(name, payload)) == (Mocked(spent), Serve(Answering(output)))
  {
    hide Decide, Take, NeverMockable;
    assert Facades(Mocked(idx).stack) == [];
    assert Counted(idx, Mockable) == idx;
  }

  lemma MockAnswers(h: Host, idx: MockIndex, spent: MockIndex, name: string, payload: Json, output: Json)
    requires !NeverMockable(name) && name != "blob.put" && Decide(idx, name, []) == Mockable
    requires Take(idx, name, Key(name, payload)) == (spent, Some(Answering(output)))
    ensures var (st', reply) := Step(h, Mocked(idx), Do(name, payload));
            && reply == Value(output) && |st'.log| == 1 && st'.log[0].Effect? && st'.log[0].name == name
            && st'.log[0].key == Key(name, payload) && st'.log[0].error.None? && st'.log[0].output == output
            && !st'.log[0].emeta.hosted
  {
    hide BeginSpan, EndSpan, FinishCell, CallLive, Decide, Take, ConsultMock;
    ConsultAnswers(idx, spent, name, payload, output);
    var st, cls := Mocked(idx), Classify(h, name, payload);
    var end := CallAdmitted(h, st, name, payload, cls);
    assert Call(h, st, name, payload) == end;
    assert end.1 == Ok(output);
  }

  /** A blob read answered from a mock; the replay reads the directory. */
  lemma MockedReadIsNotReplayed()
    ensures var h, op := QuietHost(n => 0), Do("blob.read", Null);
            var rec := Mocked(OneAnswer("blob.read", Null, Str("mocked"), Fail));
            var log := Go(h, rec, Once(op), 1).st.log;
            && Go(h, rec, Once(op), 1).replies[0] == Value(Str("mocked"))
            && Go(h, Blank(Replay, log), Once(op), 1).replies[0] == Value(Null)
  {
    hide Step, OneAnswer, Spent, Decide, Take;
    var h, op := QuietHost(n => 0), Do("blob.read", Null);
    var idx := OneAnswer("blob.read", Null, Str("mocked"), Fail);
    BlobReadIsPlain();
    AnswerTaken("blob.read", Null, Str("mocked"), Fail);
    NoFilter("blob.read", Null, Str("mocked"), Fail, "blob.read", []);
    MockAnswers(h, idx, Spent("blob.read", Null, Fail), "blob.read", Null, Str("mocked"));
    OneStep(h, Mocked(idx), op);
    var log := Go(h, Mocked(idx), Once(op), 1).st.log;
    var rep := Blank(Replay, log);
    OneStep(h, rep, op);
    assert HeadFor(rep.cursor, "blob.read", Key("blob.read", Null)) == rep.cursor;
    assert !Unmet(h, rep, op) && !IsDenied(h, rep, "blob.read", Null);
    MetIsServed(h, rep, "blob.read", Null);
  }

  // --- a token refresh ---

  /** Every http call refreshes a token first. */
  function RefreshHost(): Host {
    QuietHost(n => 0).(answer := (n, name, p) => Answer(if IsHttp(name) then Some("p") else None, Ok(Null)))
  }

  lemma GetIsHttp()
    ensures IsHttp("http.get") && !NeverMockable("http.get") && "http.get" != "blob.put" && "http.get" != "batch"
    ensures !NeverMockable("oauth.refresh")
  {
    assert "http.get"[..5] == "http.";
    assert "http.get"[0] == 'h' && "blob.put"[0] == 'b' && "batch"[0] == 'b' && "span."[0] == 's' && "trace."[0] == 't';
    assert "module.resolve"[0] == 'm' && "kernel.boot"[0] == 'k' && "runtime.get"[0] == 'r'
        && "mailbox.drain"[0] == 'm' && "fuel.state"[0] == 'f';
    assert "oauth.refresh"[0] == 'o';
  }

  lemma NoAnswerForOthers(name: string, input: Json, output: Json, other: string, key: Key)
    requires other != name
    ensures Take(OneAnswer(name, input, output, Live), other, key) == (OneAnswer(name, input, output, Live), None)
  {
  }

  /** A live http call whose refresh is answered from a mock: the refresh's record is not
      marked as the host's own, and the replay stops at it. */
  lemma MockedRefreshIsNotReplayed()
    ensures var h, op := RefreshHost(), Do("http.get", Null);
            var rec := Mocked(OneAnswer("oauth.refresh", RefreshPayload("p"), Null, Live));
            var log := Go(h, rec, Once(op), 1).st.log;
            && log != [] && Go(h, Blank(Replay, log), Once(op), 1).replies[0] == Failed(DIVERGENCE)
            && Go(h, rec, Once(op), 1).replies[0] == Value(Null)
  {
    hide Step, OneAnswer, Decide, Take, Call, Spent;
    var h, op := RefreshHost(), Do("http.get", Null);
    var idx := OneAnswer("oauth.refresh", RefreshPayload("p"), Null, Live);
    var rec := Mocked(idx);
    GetIsHttp();
    RefreshIsAnswered(rec);
    OneStep(h, rec, op);
    assert RefreshMocked(h, rec, "http.get", Null) && !IsDenied(h, rec, "http.get", Null);
    var r := RefreshFirst(h, rec, "http.get", Null);
    LiveGetReplies(h, rec);
    StepIsCall(h, rec, op);
    var log := Go(h, rec, Once(op), 1).st.log;
    var rep := Blank(Replay, log);
    OneStep(h, rep, op);
    RefreshFirstDiverges(h, [], rep, log, "http.get", Null, r);
    UnmetDiverges(h, rep, op);
  }

  lemma StepIsCall(h: Host, st: State, op: Op)
    requires op.Do?
    ensures Step(h, st, op) == (Call(h, st, op.name, op.payload).0, ReplyOf(Call(h, st, op.name, op.payload).1))
  {
    hide Call;
  }

  lemma RefreshIsAnswered(st: State)
    requires st == Mocked(OneAnswer("oauth.refresh", RefreshPayload("p"), Null, Live))
    ensures ConsultMock(st, "http.get", Key("http.get", Null)) == (st, Miss(Live))
    ensures ConsultMock(st, "oauth.refresh", Key("oauth.refresh", RefreshPayload("p"))).1 == Serve(Answering(Null))
  {
    hide OneAnswer, Spent, Decide, Take, NeverMockable;
    var idx := OneAnswer("oauth.refresh", RefreshPayload("p"), Null, Live);
    GetIsHttp();
    assert Facades([]) == [] && Counted(idx, Mockable) == idx;
    AnswerTaken("oauth.refresh", RefreshPayload("p"), Null, Live);
    NoFilter("oauth.refresh", RefreshPayload("p"), Null, Live, "http.get", []);
    NoFilter("oauth.refresh", RefreshPayload("p"), Null, Live, "oauth.refresh", []);
    assert "http.get"[0] != "oauth.refresh"[0];
    NoAnswerForOthers("oauth.refresh", RefreshPayload("p"), Null, "http.get", Key("http.get", Null));
    assert idx.unmatched == Live by { LiveIndex("oauth.refresh", RefreshPayload("p"), Null); }
  }

  lemma LiveIndex(name: string, input: Json, output: Json)
    ensures OneAnswer(name, input, output, Live).unmatched == Live
  {
  }

  lemma LiveGetReplies(h: Host, st: State)
    requires h == RefreshHost() && st == Mocked(OneAnswer("oauth.refresh", RefreshPayload("p"), Null, Live))
    ensures Call(h, st, "http.get", Null).1 == Ok(Null)
  {
    hide ConsultMock, OneAnswer, CallAdmitted, Execute, Bump, Classify;
    GetIsHttp();
    RefreshIsAnswered(st);
    var cls := Classify(h, "http.get", Null);
    LiveWhenNotMet(h, st, "http.get", Null, cls);
    var up := Bump(st, cls, false);
    BumpKeepsDepth(st, cls);
    RefreshAnswers(h, st, LogRun(up, "http.get", Null), cls);
    GetExecutes(h, up);
    assert Call(h, st, "http.get", Null) == CallAdmitted(h, st, "http.get", Null, cls);
  }

  lemma GetExecutes(h: Host, st: State)
    requires h == RefreshHost() && CallHosted(h, LogRun(st, "http.get", Null), "p").1 == Ok(Null)
    ensures Execute(h, st, "http.get", Null).1 == Ok(Null)
  {
    hide CallHosted, Batch;
    GetIsHttp();
  }

  lemma RefreshAnswers(h: Host, st: State, ran: State, cls: Class)
    requires st == Mocked(OneAnswer("oauth.refresh", RefreshPayload("p"), Null, Live))
    requires ran == Bump(st, cls, false).(ran := ran.ran)
    ensures CallHosted(h, ran, "p").1 == Ok(Null)
  {
    hide ConsultMock, OneAnswer, CallLive, Classify, Bump;
    Reentry.RefreshIsItsOwn();
    RefreshIsAnswered(st);
    BumpKeepsDepth(st, cls);
    BumpKeepsFacades(st, cls);
    ConsultElsewhere(st, ran.(hosted := ran.hosted + 1), "oauth.refresh", Key("oauth.refresh", RefreshPayload("p")));
  }

  /** The one foreign effect that is served: where the recording holds an http call after
      its token refresh, a guest that asks for that refresh itself gets the host's record. */
  lemma ForeignRefreshIsServed()
    ensures var h := RefreshHost();
            var log := Go(h, Blank(Record, []), Once(Do("http.get", Null)), 1).st.log;
            && |log| > 0 && log[0].Effect? && log[0].emeta.hosted
            && Go(h, Blank(Replay, log), Once(Do("oauth.refresh", RefreshPayload("p"))), 1).replies[0] == Value(Null)
  {
    hide Step, Call;
    var h, rec := RefreshHost(), Blank(Record, []);
    var op := Do("oauth.refresh", RefreshPayload("p"));
    OneStep(h, rec, Do("http.get", Null));
    StepIsCall(h, rec, Do("http.get", Null));
    var log := Go(h, rec, Once(Do("http.get", Null)), 1).st.log;
    RefreshRecorded(h, rec);
    var rep := Blank(Replay, log);
    OneStep(h, rep, op);
    Reentry.RefreshIsItsOwn();
    MetAtHead(rep.cursor, "oauth.refresh", Key("oauth.refresh", RefreshPayload("p")));
    MetIsServed(h, rep, "oauth.refresh", RefreshPayload("p"));
  }

  lemma RefreshRecorded(h: Host, rec: State)
    requires h == RefreshHost() && rec == Blank(Record, [])
    ensures var log := Call(h, rec, "http.get", Null).0.log;
            && |log| > 0 && log[0].Effect? && log[0].emeta.hosted && log[0].name == "oauth.refresh"
            && log[0].key == Key("oauth.refresh", RefreshPayload("p")) && log[0].error.None? && log[0].output == Null
  {
    hide ConsultMock, CallAdmitted, CallHosted, Bump;
    GetIsHttp();
    var cls := Classify(h, "http.get", Null);
    Reentry.PlainlyLive(h, rec, "http.get", Null, cls);
    BumpWritesNothing(rec, cls, false, 0);
    BumpKeepsDepth(rec, cls);
    var ran := LogRun(Bump(rec, cls, false), "http.get", Null);
    HostedRecorded(h, ran);
    assert Call(h, rec, "http.get", Null).0.log[0] == CallHosted(h, ran, "p").0.log[0];
  }

  lemma HostedRecorded(h: Host, st: State)
    requires h == RefreshHost() && st.mode.Record? && st.spanMocks == [] && st.hosted == 0 && st.log == []
    ensures var log := CallHosted(h, st, "p").0.log;
            && |log| == 1 && log[0].Effect? && log[0].emeta.hosted && log[0].name == "oauth.refresh"
            && log[0].key == Key("oauth.refresh", RefreshPayload("p")) && log[0].error.None? && log[0].output == Null
  {
    hide ConsultMock, CallAdmitted, Bump, Classify, Execute;
    Reentry.RefreshIsItsOwn();
    var payload := RefreshPayload("p");
    var inner := st.(hosted := 1);
    var cls := Classify(h, "oauth.refresh", payload);
    Reentry.PlainlyLive(h, inner, "oauth.refresh", payload, cls);
    BumpWritesNothing(inner, cls, false, 0);
    BumpKeepsDepth(inner, cls);
    RefreshSucceeds(h, Bump(inner, cls, false));
    var end := Call(h, inner, "oauth.refresh", payload).0;
    assert CallHosted(h, st, "p").0.log == end.log;
  }

  lemma RefreshSucceeds(h: Host, st: State)
    requires h == RefreshHost() && st.hosted > 0
    ensures Execute(h, st, "oauth.refresh", RefreshPayload("p")) ==
            (LogRun(st, "oauth.refresh", RefreshPayload("p")), Ok(Null))
  {
    hide CallHosted, Batch;
    Reentry.RefreshIsItsOwn();
  }

  // --- grants ---

  /** A guest whose one effect is denied, and which then finishes its cell. */
  function DeniedUser(replies: seq<Reply>): Op {
    if |replies| == 0 then Do("uuid4", Null) else CellDone("c", true, Null, false)
  }

  const NOTHING := Some(GrantSet({}))

  /** Given the same grants again, a replay denies the recorded denial anew and leaves its
      record at the head, so the end of the cell is refused; without grants it is served. */
  lemma DenialIsNotReplayedUnderGrants()
    ensures var h := QuietHost(n => 0);
            var rec := Blank(Record, []).(grants := NOTHING);
            var log := Go(h, rec, DeniedUser, 2).st.log;
            var a, b, c := Go(h, rec, DeniedUser, 2).replies,
                           Go(h, Blank(Replay, log).(grants := NOTHING), DeniedUser, 2).replies,
                           Go(h, Blank(Replay, log), DeniedUser, 2).replies;
            && a[0] == b[0] == c[0] == Failed(Denial("uuid4", "uuid4"))
            && a[1] == CellClosed && b[1] == Failed(DIVERGENCE) && c[1] == CellClosed
  {
    hide Step;
    var h := QuietHost(n => 0);
    var rec := Blank(Record, []).(grants := NOTHING);
    TwoSteps(h, rec);
    DeniedThere(h, rec);
    CellRecorded(h, Step(h, rec, Do("uuid4", Null)).0);
    var log := Go(h, rec, DeniedUser, 2).st.log;
    var again, free := Blank(Replay, log).(grants := NOTHING), Blank(Replay, log);
    TwoSteps(h, again);
    DeniedThere(h, again);
    CellRefused(h, Step(h, again, Do("uuid4", Null)).0);
    TwoSteps(h, free);
    DenialServed(h, free);
    CellServed(h, Step(h, free, Do("uuid4", Null)).0);
  }

  lemma TwoSteps(h: Host, st: State)
    ensures var one := Step(h, st, Do("uuid4", Null));
            var two := Step(h, one.0, CellDone("c", true, Null, false));
            Go(h, st, DeniedUser, 2).st == two.0 && Go(h, st, DeniedUser, 2).replies == [one.1, two.1]
  {
    hide Step;
    assert Go(h, st, DeniedUser, 0) == Run(st, []);
    assert |Go(h, st, DeniedUser, 1).replies| == 1;
  }

  lemma NothingGranted(cap: string)
    ensures !NOTHING.value.Allowed(cap)
  {
  }

  lemma DeniedThere(h: Host, st: State)
    requires h == QuietHost(n => 0) && st == Blank(st.mode, st.cursor.log).(grants := NOTHING)
    ensures var (st', reply) := Step(h, st, Do("uuid4", Null));
            && reply == Failed(Denial("uuid4", "uuid4")) && st'.stack == [] && st'.mode == st.mode
                && st'.cursor == st.cursor
            && |st'.log| == 1 && st'.log[0].Effect? && st'.log[0].name == "uuid4"
                && st'.log[0].key == Key("uuid4", Null)
            && st'.log[0].error == Some(Denial("uuid4", "uuid4")) && !st'.log[0].emeta.hosted
  {
    hide CallAdmitted, ReplayCall, BeginSpan, EndSpan, FinishCell;
    UuidIsPlain();
    NothingGranted("uuid4");
  }

  lemma CellRecorded(h: Host, st: State)
    requires st.mode.Record? && st.stack == []
    ensures var (st', reply) := Step(h, st, CellDone("c", true, Null, false));
            reply == CellClosed && st'.log == st.log + [Cell("c", true, Null, false)]
  {
  }

  lemma CellRefused(h: Host, st: State)
    requires st.mode.Replay? && st.stack == [] && st.cursor.AtRecord() && st.cursor.log[st.cursor.pos].Effect?
    ensures Step(h, st, CellDone("c", true, Null, false)).1 == Failed(DIVERGENCE)
  {
  }

  lemma CellServed(h: Host, st: State)
    requires st.mode.Replay? && st.stack == [] && st.cursor.AtCell("c", true)
    ensures Step(h, st, CellDone("c", true, Null, false)).1 == CellClosed
  {
  }

  lemma DenialServed(h: Host, st: State)
    requires st == Blank(Replay, st.cursor.log) && st.cursor.AtEffect("uuid4", Key("uuid4", Null))
    requires st.cursor.log[0].error == Some(Denial("uuid4", "uuid4"))
    ensures var (st', reply) := Step(h, st, Do("uuid4", Null));
            && reply == Failed(Denial("uuid4", "uuid4")) && st'.stack == [] && st'.mode.Replay?
                && st'.cursor == st.cursor.Advance()
  {
    hide CallAdmitted, BeginSpan, EndSpan, FinishCell;
    UuidIsPlain();
    assert Drain(h, st, "uuid4", Key("uuid4", Null)) == st;
  }

  // --- a facade named like an effect ---

  /** A guest that, under a mock, asks for an effect and then opens a span of that name. */
  function ToolUser(spec: Json): Guest {
    (replies: seq<Reply>) =>
      if |replies| == 0 then Begin("span", None, Under(spec))
      else if |replies| == 1 then Do("uuid4", Null)
      else Begin("uuid4", None, Null)
  }

  lemma ToolSteps(h: Host, st: State, spec: Json)
    ensures var one := Step(h, st, Begin("span", None, Under(spec))).0;
            var two := Step(h, one, Do("uuid4", Null)).0;
            var three := Step(h, two, Begin("uuid4", None, Null));
            Go(h, st, ToolUser(spec), 3).st == three.0 && Go(h, st, ToolUser(spec), 3).replies[2] == three.1
  {
    hide Step;
    assert Go(h, st, ToolUser(spec), 0) == Run(st, []);
    var one, two := Go(h, st, ToolUser(spec), 1), Go(h, st, ToolUser(spec), 2);
    assert |one.replies| == 1 && |two.replies| == 2;
  }

  lemma ToolOpens(h: Host, st: State, idx: MockIndex)
    requires InSpan(st, idx) && (st.mode.Replay? ==> st.cursor.AtBegin("uuid4", Key("uuid4", Null)))
    requires idx == OneAnswer("uuid4", Null, Null, Fail) || idx == Spent("uuid4", Null, Fail)
    ensures var (st', reply) := Step(h, st, Begin("uuid4", None, Null));
            && reply.Began? && (reply.served.Some? <==> idx == OneAnswer("uuid4", Null, Null, Fail))
            && |st'.log| == |st.log| + 1 && st.log <= st'.log
            && st'.log[|st.log|].SpanBegin? && st'.log[|st.log|].name == "uuid4"
                && st'.log[|st.log|].key == Key("uuid4", Null)
  {
    hide BeginSpan, Call, EndSpan, FinishCell, Consulted, Decide, Take;
    UuidIsPlain();
    assert |"uuid4"| != |"cell"| && "uuid4"[0] != "bash"[0];
    AnswerTaken("uuid4", Null, Null, Fail);
    NoFilter("uuid4", Null, Null, Fail, "uuid4", Facades(st.stack));
    assert Counted(idx, Mockable) == idx;
    FacadeBeginIs(h, st, "uuid4", None, Null);
  }

  /** The effect used up the one answer when recorded; on replay it is still there, and the
      span is served whole. */
  lemma FacadeIsServedOnReplayOnly()
    ensures var h, g := AnswerHost(), ToolUser(Str("run_b"));
            var log := Go(h, Blank(Record, []), g, 3).st.log;
            var a, b := Go(h, Blank(Record, []), g, 3).replies[2], Go(h, Blank(Replay, log), g, 3).replies[2];
            && a.Began? && a.served.None? && b.Began? && b.served.Some?
  {
    hide Step, OneAnswer, Spent, BuildMock;
    var spec := Str("run_b");
    var h, g, rec := AnswerHost(), ToolUser(spec), Blank(Record, []);
    AnswersDiffer();
    AnswerSpecBuilds([]);
    SpanOpens(h, rec, spec, OneAnswer("uuid4", Null, Null, Fail));
    var r1 := Step(h, rec, Begin("span", None, Under(spec))).0;
    RecordedAnswer(h, r1);
    var r2 := Step(h, r1, Do("uuid4", Null)).0;
    ToolOpens(h, r2, Spent("uuid4", Null, Fail));
    ToolSteps(h, rec, spec);
    var log := Go(h, rec, g, 3).st.log;
    var rep := Blank(Replay, log);
    SpanOpens(h, rep, spec, OneAnswer("uuid4", Null, Null, Fail));
    var p1 := Step(h, rep, Begin("span", None, Under(spec))).0;
    ReplayedAnswer(h, p1, OneAnswer("uuid4", Null, Null, Fail));
    var p2 := Step(h, p1, Do("uuid4", Null)).0;
    ToolOpens(h, p2, OneAnswer("uuid4", Null, Null, Fail));
    ToolSteps(h, rep, spec);
  }

  lemma AnswersDiffer()
    ensures OneAnswer("uuid4", Null, Null, Fail) != Spent("uuid4", Null, Fail)
  {
    var k := ("uuid4", Exact(Key("uuid4", Null)));
    assert OneAnswer("uuid4", Null, Null, Fail).queues[k] != Spent("uuid4", Null, Fail).queues[k];
  }

  // --- a spec that names the run it is in ---

  /** A guest that mocks a span from its own run, and inside it runs a tool. */
  function OwnRunUser(replies: seq<Reply>): Op {
    if |replies| == 0 then Begin("span", None, Under(Str("run_a")))
    else if |replies| == 1 then Begin("tool", None, Null)
    else End(true, Str("done"), Null)
  }

  lemma OwnRunSteps(h: Host, st: State)
    ensures var one := Step(h, st, Begin("span", None, Under(Str("run_a"))));
            var two := Step(h, one.0, Begin("tool", None, Null));
            var three := Step(h, two.0, End(true, Str("done"), Null));
            Go(h, st, OwnRunUser, 3).st == three.0 && Go(h, st, OwnRunUser, 3).replies[1] == two.1
  {
    hide Step;
    assert Go(h, st, OwnRunUser, 0) == Run(st, []);
    var one, two := Go(h, st, OwnRunUser, 1), Go(h, st, OwnRunUser, 2);
    assert |one.replies| == 1 && |two.replies| == 2;
  }

  /** The whole of a run id's queues. */
  function WholeRun(queues: Queues): MockIndex { MockIndex(queues, [], [], Fail, 0, 0, []) }

  const DONE := From("run_a", Str("done"), None, Some(true))

  /** What the recording has: the span, and the tool begun and ended in it. */
  predicate ToolRun(log: seq<Trace.Record>) {
    && |log| == 3 && log[0] == SpanBegin(1, "span", None, Under(Str("run_a")), Key("span", Under(Str("run_a"))), None)
    && log[1] == SpanBegin(2, "tool", None, Null, Key("tool", Null), Some(1))
    && log[2].SpanEnd? && log[2].id == 2 && log[2].name == "tool" && log[2].ok && log[2].output == Str("done")
    && log[2].serror == Null
  }

  lemma ToolRunFolds(log: seq<Trace.Record>)
    requires ToolRun(log)
    ensures FoldRun(map[], log, "run_a").queues == map[("tool", Exact(Key("tool", Null))) := [DONE]]
  {
    assert log[..2][..1] == log[..1] && log[..1][..0] == [];
    EnqueuedFirst("tool", Key("tool", Null), DONE);
    assert FoldRun(map[], log[..0], "run_a") == Folding(map[], map[]);
    assert FoldRun(map[], log[..1], "run_a") == FoldOne(Folding(map[], map[]), log[0], "run_a");
    assert FoldRun(map[], log[..2], "run_a") == FoldOne(FoldRun(map[], log[..1], "run_a"), log[1], "run_a");
    assert FoldRun(map[], log, "run_a") == FoldOne(FoldRun(map[], log[..2], "run_a"), log[2], "run_a");
    assert FailureOf(Null) == None;
  }

  lemma ToolIsNoPlumbing()
    ensures !NeverMockable("tool") && !NeverSubstituted("tool")
  {
    assert "tool"[0] == 't' && "tool"[1] == 'o' && "trace."[1] == 'r' && "span."[0] == 's';
    assert "module.resolve"[0] == 'm' && "kernel.boot"[0] == 'k' && "runtime.get"[0] == 'r';
    assert "mailbox.drain"[0] == 'm' && "fuel.state"[0] == 'f' && "cell"[0] == 'c' && "bash"[0] == 'b';
  }

  lemma OwnToolOpens(h: Host, st: State, queues: Queues, slot: Option<Slot>)
    requires InSpan(st, WholeRun(queues)) && (st.mode.Replay? ==> st.cursor.AtBegin("tool", Key("tool", Null)))
    requires slot == Take(WholeRun(queues), "tool", Key("tool", Null)).1 && st.spanN == 1 && st.cell == None
    ensures var (st', reply) := Step(h, st, Begin("tool", None, Null));
            && reply == Began(2, ServedAs(slot))
            && st'.log == st.log + [SpanBegin(2, "tool", None, Null, Key("tool", Null), Some(1))]
            && st'.mode == st.mode && st'.cell == None
            && |st'.stack| == 2 && st'.stack[1].id == 2 && st'.stack[1].name == "tool"
  {
    hide BeginSpan, Call, EndSpan, FinishCell, Consulted, Take;
    ToolIsNoPlumbing();
    var idx := WholeRun(queues);
    assert Decide(idx, "tool", Facades(st.stack)) == Mockable && Counted(idx, Mockable) == idx;
    FacadeBeginIs(h, st, "tool", None, Null);
  }

  /** The queues of a spec that names the run it is in are those of the run so far when
      recorded, and of the whole run on replay: the tool ran when recorded, and is served
      its own later answer on replay. */
  lemma OwnRunSpecIsNotReplayed()
    ensures var h, rec := QuietHost(n => 0), Blank(Record, []);
            var log := Go(h, rec, OwnRunUser, 3).st.log;
            var h' := h.(runId := "run_c", runs := Stored("run_a", log));
            && Go(h, rec, OwnRunUser, 3).replies[1] == Began(2, None)
            && Go(h', Blank(Replay, log), OwnRunUser, 3).replies[1] == Began(2, Some(Served(true, Str("done"), None)))
  {
    hide Step, BuildMock, Take, FoldRun;
    var h, rec, spec := QuietHost(n => 0), Blank(Record, []), Str("run_a");
    RunsDiffer();
    OwnBuildsNothing(h);
    SpanOpens(h, rec, spec, WholeRun(map[]));
    BeginCounts(h, rec, spec, WholeRun(map[]));
    var r1 := Step(h, rec, Begin("span", None, Under(spec))).0;
    EmptyAnswersNothing();
    OwnToolOpens(h, r1, map[], None);
    var r2 := Step(h, r1, Begin("tool", None, Null)).0;
    ToolEnds(h, r2);
    OwnRunSteps(h, rec);
    var log := Go(h, rec, OwnRunUser, 3).st.log;
    ToolRunFolds(log);
    var h', rep := h.(runId := "run_c", runs := Stored("run_a", log)), Blank(Replay, log);
    var queues := map[("tool", Exact(Key("tool", Null))) := [DONE]];
    OwnBuildsWhole(h', log);
    SpanOpens(h', rep, spec, WholeRun(queues));
    BeginCounts(h', rep, spec, WholeRun(queues));
    var p1 := Step(h', rep, Begin("span", None, Under(spec))).0;
    DoneAnswers(queues);
    OwnToolOpens(h', p1, queues, Some(DONE));
    OwnRunSteps(h', rep);
  }

  lemma RunsDiffer()
    ensures ValidRunId("run_a") && "run_a" != "run_c"
  {
    assert "run_a"[..4] == "run_" && "run_a"[4] == 'a' && "run_c"[4] == 'c';
  }

  lemma OwnBuildsNothing(h: Host)
    requires h.runId == "run_a"
    ensures BuildMock(h, Str("run_a"), []) == Ok(WholeRun(map[]))
  {
    hide Build;
    RunsDiffer();
    RunIdBuilds("run_a", Runs(h.runId, [], h.runs), []);
  }

  lemma OwnBuildsWhole(h: Host, log: seq<Trace.Record>)
    requires h.runId == "run_c" && h.runs("run_a") == Ok(log)
    ensures BuildMock(h, Str("run_a"), []) == Ok(WholeRun(FoldRun(map[], log, "run_a").queues))
  {
    hide Build, FoldRun;
    RunsDiffer();
    RunIdBuilds("run_a", Runs(h.runId, [], h.runs), log);
  }

  lemma BeginCounts(h: Host, st: State, spec: Json, idx: MockIndex)
    requires st == Blank(st.mode, st.cursor.log) && !st.mode.Mock? && spec != Null
    requires st.mode.Replay? ==> st.cursor.AtBegin("span", Key("span", Under(spec)))
    requires BuildMock(h, spec, []) == Ok(idx)
    ensures var st' := Step(h, st, Begin("span", None, Under(spec))).0; st'.spanN == 1 && st'.cell == None
  {
    hide BuildMock;
    assert MockSpecOf(Under(spec)) == Some(spec);
    SpecBeginIs(h, st, "span", None, Under(spec), idx);
  }

  lemma EmptyAnswersNothing()
    ensures Take(WholeRun(map[]), "tool", Key("tool", Null)).1 == None
  {
  }

  lemma DoneAnswers(queues: Queues)
    requires queues == map[("tool", Exact(Key("tool", Null))) := [DONE]]
    ensures Take(WholeRun(queues), "tool", Key("tool", Null)).1 == Some(DONE)
  {
  }

  lemma ToolEnds(h: Host, st: State)
    requires st.mode.Record? && |st.stack| == 2 && st.stack[1].id == 2 && st.stack[1].name == "tool"
    ensures var log := Step(h, st, End(true, Str("done"), Null)).0.log;
            && |log| == |st.log| + 1 && st.log <= log
            && log[|st.log|].SpanEnd? && log[|st.log|].id == 2 && log[|st.log|].name == "tool"
            && log[|st.log|].ok && log[|st.log|].output == Str("done") && log[|st.log|].serror == Null
  {
    hide EndMeta;
  }
}
