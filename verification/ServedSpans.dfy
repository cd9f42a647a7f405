/** From the run a span was recorded in to the facade that is later served from it: the
    reply says how that span ended. */
module ServedSpans {
  import opened Options
  import opened Json
  import opened Trace
  import opened Mocks
  import opened MockSpecs
  import opened Pipeline
  import opened Brackets
  import opened Stretch
  import opened Accounting
  import opened Shadows
  import opened Replaying
  import opened ReplayRuns
  import opened ReplayCounts
  import opened Positions = Facades

  // --- the keys of the spans that are open ---

  /** `Open`, with the keys of the begin records. */
  function OpenKeys(log: seq<Trace.Record>): seq<Key> {
    if log == [] then []
    else
      var before, r := OpenKeys(log[..|log| - 1]), log[|log| - 1];
      if r.SpanBegin? then before + [r.key]
      else if r.SpanEnd? && before != [] then before[..|before| - 1]
      else before
  }

  lemma KeysOn(log: seq<Trace.Record>, r: Trace.Record)
    ensures OpenKeys(log + [r]) ==
            if r.SpanBegin? then OpenKeys(log) + [r.key]
            else if r.SpanEnd? && OpenKeys(log) != [] then OpenKeys(log)[..|OpenKeys(log)| - 1]
            else OpenKeys(log)
  {
    assert (log + [r])[..|log + [r]| - 1] == log;
  }

  lemma FoldsOn(q: Queues, log: seq<Trace.Record>, r: Trace.Record, run: string)
    ensures FoldRun(q, log + [r], run) == FoldOne(FoldRun(q, log, run), r, run)
  {
    assert (log + [r])[..|log + [r]| - 1] == log;
  }

  lemma {:induction false} AsManyKeys(log: seq<Trace.Record>)
    ensures |OpenKeys(log)| == |Open(log)|
  {
    if log != [] { AsManyKeys(log[..|log| - 1]); }
  }

  /** Span k of those open, as a fold of the log knows it. */
  ghost predicate Begun(q: Queues, log: seq<Trace.Record>, run: string, k: nat)
    requires k < |OpenKeys(log)| == |Open(log)|
  {
    var (id, name) := Open(log)[k];
    id in FoldRun(q, log, run).begun && FoldRun(q, log, run).begun[id] == (name, OpenKeys(log)[k])
  }

  ghost predicate AllBegun(q: Queues, log: seq<Trace.Record>, run: string) {
    |OpenKeys(log)| == |Open(log)| && forall k | 0 <= k < |Open(log)| :: Begun(q, log, run, k)
  }

  /** A fold of a properly nested trace knows the name and key of every span still open. */
  lemma {:induction false} FoldKnowsOpen(q: Queues, log: seq<Trace.Record>, run: string)
    requires Nested(log)
    ensures AllBegun(q, log, run)
  {
    hide Nested, FoldRun, AllBegun, OpenKeys, Open;
    if log == [] {
      assert AllBegun(q, [], run) by { NoneBegun(q, run); }
    } else {
      var most, r := log[..|log| - 1], log[|log| - 1];
      assert log == most + [r];
      ReadOn(most, r);
      FoldKnowsOpen(q, most, run);
      OneMoreKnown(q, most, r, run);
    }
  }

  lemma NoneBegun(q: Queues, run: string)
    ensures AllBegun(q, [], run)
  {
  }

  lemma OneMoreKnown(q: Queues, most: seq<Trace.Record>, r: Trace.Record, run: string)
    requires Nested(most) && Nests(most, r) && AllBegun(q, most, run)
    ensures AllBegun(q, most + [r], run)
  {
    hide Enqueue, MaxId, Nested, FoldRun, Open, OpenKeys;
    ReadOn(most, r);
    KeysOn(most, r);
    FoldsOn(q, most, r, run);
    OpenIdsBounded(most);
    OpenIdsDistinct(most);
    forall k | 0 <= k < |Open(most + [r])| ensures Begun(q, most + [r], run, k) {
      if k < |Open(most)| { assert Begun(q, most, run, k); }
    }
  }

  function QueueIn(q: Queues, name: string, key: Key): seq<Slot> {
    if (name, Exact(key)) in q then q[(name, Exact(key))] else []
  }

  /** An end record is queued last under the name and key of its own begin. */
  lemma EndIsQueued(q: Queues, log: seq<Trace.Record>, r: Trace.Record, run: string)
    requires Nested(log + [r]) && r.SpanEnd?
    ensures Open(log) != [] && |OpenKeys(log)| == |Open(log)|
    ensures var (name, key) := (Open(log)[|Open(log)| - 1].1, OpenKeys(log)[|Open(log)| - 1]);
            QueueIn(FoldRun(q, log + [r], run).queues, name, key) ==
            QueueIn(FoldRun(q, log, run).queues, name, key) + [From(run, r.output, FailureOf(r.serror), Some(r.ok))]
  {
    ReadOn(log, r);
    FoldsOn(q, log, r, run);
    FoldKnowsOpen(q, log, run);
    assert Begun(q, log, run, |Open(log)| - 1);
  }

  /** Folding on only adds to the ends of queues. */
  lemma {:induction false} QueuesGrow(q: Queues, log: seq<Trace.Record>, news: seq<Trace.Record>, run: string,
                                      name: string, key: Key)
    ensures QueueIn(FoldRun(q, log, run).queues, name, key) <= QueueIn(FoldRun(q, log + news, run).queues, name, key)
  {
    if news == [] {
      assert log + news == log;
    } else {
      var most, r := news[..|news| - 1], news[|news| - 1];
      QueuesGrow(q, log, most, run, name, key);
      assert log + news == (log + most) + [r];
      FoldsOn(q, log + most, r, run);
    }
  }

  // --- in a run ---

  lemma {:induction false} EffectsKeepKeys(log: seq<Trace.Record>, news: seq<Trace.Record>, span: Option<nat>)
    requires EffectsIn(news, span)
    ensures OpenKeys(log + news) == OpenKeys(log) && Open(log + news) == Open(log)
  {
    if news == [] {
      assert log + news == log;
    } else {
      var most, r := news[..|news| - 1], news[|news| - 1];
      EffectsKeepKeys(log, most, span);
      assert log + news == (log + most) + [r];
      KeysOn(log + most, r);
      ReadOn(log + most, r);
    }
  }

  /** The frame at height i is this span, begun with this key. */
  ghost predicate IsSpan(st: State, i: nat, id: nat, name: string, key: Key) {
    && i < |Open(st.log)| && |OpenKeys(st.log)| == |Open(st.log)| == |st.stack|
    && Open(st.log)[i] == (id, name) && OpenKeys(st.log)[i] == key
  }

  lemma Heights(st: State)
    requires Coherent(st)
    ensures |OpenKeys(st.log)| == |Open(st.log)| == |st.stack|
  {
    AsManyKeys(st.log);
  }

  lemma BeginOpens(h: Host, st: State, name: string, kind: Option<string>, input: Json)
    requires Coherent(st) && !st.mode.Replay? && |BeginSpan(h, st, name, kind, input).0.stack| > |st.stack|
    ensures BeginSpan(h, st, name, kind, input).0.log == st.log + [BeginOf(st.(spanN := st.spanN + 1), name, input)]
  {
    hide BeginSpan, BuildMock, SlotFor, Consulted;
    if MockSpecOf(input).None? {
      FacadeBeginIs(h, st, name, kind, input);
    } else if BuildMock(h, MockSpecOf(input).value, st.log).Ok? {
      SpecBeginIs(h, st, name, kind, input, BuildMock(h, MockSpecOf(input).value, st.log).value);
    } else {
      BadBeginKeeps(h, st, name, kind, input);
    }
  }

  lemma BegunIsSpan(h: Host, st: State, name: string, kind: Option<string>, input: Json)
    requires Coherent(st) && !st.mode.Replay? && |Step(h, st, Begin(name, kind, input)).0.stack| > |st.stack|
    ensures IsSpan(Step(h, st, Begin(name, kind, input)).0, |st.stack|, st.spanN + 1, name, Key(name, input))
  {
    hide BeginSpan, Coherent;
    var st' := Step(h, st, Begin(name, kind, input)).0;
    StepKeepsCoherent(h, st, Begin(name, kind, input));
    Heights(st);
    Heights(st');
    BeginOpens(h, st, name, kind, input);
    var r := BeginOf(st.(spanN := st.spanN + 1), name, input);
    KeysOn(st.log, r);
    ReadOn(st.log, r);
  }

  lemma BeginAppends(h: Host, st: State, name: string, kind: Option<string>, input: Json)
    requires !st.mode.Replay?
    ensures var st' := BeginSpan(h, st, name, kind, input).0;
            st'.log == st.log || st'.log == st.log + [BeginOf(st.(spanN := st.spanN + 1), name, input)]
  {
    hide BeginSpan, BuildMock, SlotFor, Consulted;
    if MockSpecOf(input).None? {
      FacadeBeginIs(h, st, name, kind, input);
    } else if BuildMock(h, MockSpecOf(input).value, st.log).Ok? {
      SpecBeginIs(h, st, name, kind, input, BuildMock(h, MockSpecOf(input).value, st.log).value);
    } else {
      BadBeginKeeps(h, st, name, kind, input);
    }
  }

  lemma StepKeepsSpan(h: Host, st: State, op: Op, i: nat, id: nat, name: string, key: Key)
    requires Coherent(st) && !st.mode.Replay? && IsSpan(st, i, id, name, key) && |Step(h, st, op).0.stack| > i
    ensures IsSpan(Step(h, st, op).0, i, id, name, key)
  {
    hide Call, BeginSpan, EndMeta, CloseAll, Coherent, AfterClose;
    var st' := Step(h, st, op).0;
    StepKeepsCoherent(h, st, op);
    Heights(st');
    match op
    case Begin(name', kind, input) =>
      BeginAppends(h, st, name', kind, input);
      var r := BeginOf(st.(spanN := st.spanN + 1), name', input);
      KeysOn(st.log, r);
      ReadOn(st.log, r);
    case End(ok, output, error) => EndKeepsSpan(h, st, ok, output, error, i);
    case Do(name', payload) =>
      CallIsStretch(h, st, name', payload);
      EffectsKeepKeys(st.log, st'.log[|st.log|..], TopId(st));
      assert st'.log == st.log + st'.log[|st.log|..];
    case CellDone(cell, ok, error, interrupted) =>
  }

  lemma EndKeepsSpan(h: Host, st: State, ok: bool, output: Json, error: Json, i: nat)
    requires Coherent(st) && !st.mode.Replay? && i < |EndSpan(h, st, ok, output, error).0.stack|
    ensures |Open(st.log)| > i && |OpenKeys(st.log)| > i
    ensures var log := EndSpan(h, st, ok, output, error).0.log;
            && |Open(log)| > i && |OpenKeys(log)| > i && Open(log)[i] == Open(st.log)[i]
            && OpenKeys(log)[i] == OpenKeys(st.log)[i]
  {
    hide EndMeta, Coherent, EndSpan;
    Heights(st);
    var st' := EndSpan(h, st, ok, output, error).0;
    assert Coherent(st') by { EndStays(h, st, ok, output, error); }
    Heights(st');
    if st.stack != [] {
      EndIs(h, st, ok, output, error);
      var r := EndOf(h, st, st.stack[|st.stack| - 1], ok, output, error);
      KeysOn(st.log, r);
      ReadOn(st.log, r);
    } else {
      assert st' == st by { EmptyEnd(h, st, ok, output, error); }
    }
  }

  lemma EndStays(h: Host, st: State, ok: bool, output: Json, error: Json)
    requires Coherent(st) && !st.mode.Replay?
    ensures Coherent(EndSpan(h, st, ok, output, error).0)
  {
    hide EndSpan, Coherent;
    StepKeepsCoherent(h, st, End(ok, output, error));
  }

  lemma {:induction false} SpanSince(h: Host, st: State, g: Guest, b: nat, k: nat, i: nat)
    requires Fresh(st) && !st.mode.Replay? && OpenSince(h, st, g, b, k, i) && OpAt(h, st, g, b).Begin?
    ensures var op := OpAt(h, st, g, b);
            IsSpan(Go(h, st, g, k).st, i, Go(h, st, g, b).st.spanN + 1, op.name, Key(op.name, op.input))
    decreases k
  {
    hide Step, Coherent, IsSpan, Go, OpenSince, Fresh;
    var op := OpAt(h, st, g, b);
    OpenUntil(h, st, g, b, k, i);
    GoOn(h, st, g, k);
    var here := Go(h, st, g, k - 1).st;
    if k == b + 1 {
      BegunIsSpan(h, here, op.name, op.kind, op.input);
    } else {
      SpanSince(h, st, g, b, k - 1, i);
      StepKeepsSpan(h, here, OpAt(h, st, g, k - 1), i, Go(h, st, g, b).st.spanN + 1, op.name, Key(op.name, op.input));
    }
  }

  lemma GoOn(h: Host, st: State, g: Guest, k: nat)
    requires Fresh(st) && !st.mode.Replay? && k > 0
    ensures var here := Go(h, st, g, k - 1).st;
            Coherent(here) && !here.mode.Replay? && Go(h, st, g, k).st == Step(h, here, OpAt(h, st, g, k - 1)).0
  {
    hide Go, Coherent, Step, Track;
    GoStep(h, st, g, k, []);
    GoIsCoherent(h, st, g, k - 1, []);
  }

  lemma CoherentIsNested(st: State)
    requires Coherent(st)
    ensures Nested(st.log)
  {
  }

  lemma OpenUntil(h: Host, st: State, g: Guest, b: nat, k: nat, i: nat)
    requires OpenSince(h, st, g, b, k, i)
    ensures b < k && |Go(h, st, g, b).st.stack| == i && |Go(h, st, g, k).st.stack| > i
    ensures k > b + 1 ==> OpenSince(h, st, g, b, k - 1, i)
  {
    hide Go;
  }

  /** Step b begins a span and step e ends it. */
  ghost predicate Spans(h: Host, st: State, g: Guest, b: nat, e: nat) {
    && Fresh(st) && !st.mode.Replay? && OpAt(h, st, g, b).Begin? && OpAt(h, st, g, e).End?
    && OpenSince(h, st, g, b, e, |Go(h, st, g, b).st.stack|)
    && |Go(h, st, g, e).st.stack| == |Go(h, st, g, b).st.stack| + 1
  }

  lemma EndWrites(h: Host, st: State, g: Guest, b: nat, e: nat)
    requires Spans(h, st, g, b, e)
    ensures var here, op := Go(h, st, g, e).st, OpAt(h, st, g, e);
            && here.stack != [] && Coherent(here)
            && Go(h, st, g, e + 1).st.log ==
               here.log + [EndOf(h, here, here.stack[|here.stack| - 1], op.ok, op.output, op.error)]
            && Nested(Go(h, st, g, e + 1).st.log)
  {
    hide Go, EndSpan, EndOf, AfterClose, OpenSince, Agrees, Nested;
    GoOn(h, st, g, e + 1);
    GoOn(h, st, g, e + 2);
    CoherentIsNested(Go(h, st, g, e + 1).st);
    var here, op := Go(h, st, g, e).st, OpAt(h, st, g, e);
    EndIs(h, here, op.ok, op.output, op.error);
    ClosedLog(h, here, op.ok, op.output, op.error);
  }

  lemma ClosedLog(h: Host, st: State, ok: bool, output: Json, error: Json)
    requires st.stack != []
    ensures AfterClose(h, st, ok, output, error).log
            == st.log + [EndOf(h, st, st.stack[|st.stack| - 1], ok, output, error)]
  {
    hide EndMeta;
  }

  /** What the run's trace queues for that span: the outcome its end gave. */
  lemma SpanIsQueued(h: Host, st: State, g: Guest, b: nat, e: nat, n: nat, run: string)
    requires Spans(h, st, g, b, e) && e < n
    ensures var begin, end := OpAt(h, st, g, b), OpAt(h, st, g, e);
            var key := Key(begin.name, begin.input);
            var all := QueueIn(FoldRun(map[], Go(h, st, g, n).st.log, run).queues, begin.name, key);
            var p := |QueueIn(FoldRun(map[], Go(h, st, g, e).st.log, run).queues, begin.name, key)|;
            p < |all| && all[p] == From(run, end.output, FailureOf(end.error), Some(end.ok))
  {
    hide Go, Coherent, Nested, FoldRun, Open, OpenKeys, QueueIn;
    var begin, end := OpAt(h, st, g, b), OpAt(h, st, g, e);
    var here := Go(h, st, g, e).st;
    var key := Key(begin.name, begin.input);
    SpanSince(h, st, g, b, e, |Go(h, st, g, b).st.stack|);
    EndWrites(h, st, g, b, e);
    var r := EndOf(h, here, here.stack[|here.stack| - 1], end.ok, end.output, end.error);
    EndIsQueued(map[], here.log, r, run);
    GoGrows(h, st, g, e + 1, n);
    var log, all := Go(h, st, g, e + 1).st.log, Go(h, st, g, n).st.log;
    assert all == log + all[|log|..];
    QueuesGrow(map[], log, all[|log|..], run, begin.name, key);
  }

  // --- the reply of a facade served from it ---

  /** The facade is asked of the innermost index, where `slot` is next. */
  ghost predicate NextIs(st: State, name: string, input: Json, slot: Slot) {
    && !NeverSubstituted(name) && st.spanMocks != [] && MockSpecOf(input).None?
    && (st.mode.Replay? ==> st.cursor.AtBegin(name, Key(name, input)))
    && var idx := st.spanMocks[|st.spanMocks| - 1];
       && Decide(idx, name, Facades(st.stack)).IsMockable()
       && var q := Queue(idx, name, Exact(Key(name, input))); q != [] && q[0] == slot
  }

  /** A facade served from an outcome with no verdict of its own succeeded if and only if
      there is no error; one with a verdict says that. */
  lemma ServedReply(h: Host, st: State, name: string, kind: Option<string>, input: Json, slot: Slot) returns (s: Served)
    requires NextIs(st, name, input, slot)
    ensures Step(h, st, Begin(name, kind, input)).1 == Began(st.spanN + 1, Some(s))
    ensures s.output == slot.rec.output && s.error == slot.rec.error
    ensures slot.rec.ok.Some? ==> s.ok == slot.rec.ok.value
    ensures slot.rec.ok.None? ==> (s.ok <==> slot.rec.error.None?)
  {
    hide BeginSpan, Consulted, Decide, Counted;
    var idx := st.spanMocks[|st.spanMocks| - 1];
    var d := Decide(idx, name, Facades(st.stack));
    TakePolicy(idx, d, name, Key(name, input));
    FacadeBeginIs(h, st, name, kind, input);
    s := ServedOutcome(slot.rec);
  }

  /** The index of a stored run, as many answers for the name and input further on. */
  ghost predicate Reached(h: Host, st: State, run: string, log: seq<Trace.Record>, name: string, input: Json, p: nat) {
    && ValidRunId(run) && run != h.runId && h.runs(run) == Ok(log)
    && st.spanMocks != [] && BuildMock(h, Str(run), []).Ok?
    && var built, idx := BuildMock(h, Str(run), []).value, st.spanMocks[|st.spanMocks| - 1];
       && OnlyDrawn(built, idx) && p < |Queue(built, name, Exact(Key(name, input)))|
       && Drawn(built, idx, name, Exact(Key(name, input))) == p
  }

  lemma ReachedNext(h: Host, st: State, run: string, log: seq<Trace.Record>, name: string, input: Json, p: nat)
    requires Reached(h, st, run, log, name, input, p)
    ensures var all := QueueIn(FoldRun(map[], log, run).queues, name, Key(name, input));
            var q := Queue(st.spanMocks[|st.spanMocks| - 1], name, Exact(Key(name, input)));
            p < |all| && q != [] && q[0] == all[p]
  {
    hide Build, FoldRun;
    RunIdBuilds(run, Runs(h.runId, [], h.runs), log);
    var built, idx := BuildMock(h, Str(run), []).value, st.spanMocks[|st.spanMocks| - 1];
    assert Suffix(Queue(built, name, Exact(Key(name, input))), Queue(idx, name, Exact(Key(name, input))));
  }

  /** Served whole, a facade's begin replies with how the recorded span of its name and
      input ended: `ok` and output as the end gave them, and of its error the type and the
      message. */
  lemma FacadeRepliesAsEnded(h: Host, st: State, g: Guest, b: nat, e: nat, n: nat, run: string,
                             h': Host, st': State, kind: Option<string>) returns (s: Served)
    requires Spans(h, st, g, b, e) && e < n
    requires var begin := OpAt(h, st, g, b);
             var key := Key(begin.name, begin.input);
             var p := |QueueIn(FoldRun(map[], Go(h, st, g, e).st.log, run).queues, begin.name, key)|;
             Reached(h', st', run, Go(h, st, g, n).st.log, begin.name, begin.input, p)
    requires var begin := OpAt(h, st, g, b);
             && !NeverSubstituted(begin.name) && MockSpecOf(begin.input).None?
             && (st'.mode.Replay? ==> st'.cursor.AtBegin(begin.name, Key(begin.name, begin.input)))
             && Decide(st'.spanMocks[|st'.spanMocks| - 1], begin.name, Facades(st'.stack)).IsMockable()
    ensures var begin, end := OpAt(h, st, g, b), OpAt(h, st, g, e);
            && Step(h', st', Begin(begin.name, kind, begin.input)).1 == Began(st'.spanN + 1, Some(s))
            && s.ok == end.ok && s.output == end.output
            && (s.error.Some? <==> end.error.Obj?)
            && (forall text | Get(end.error, "type") == Some(Str(text)) :: s.error.Some? && s.error.value.kind == text)
            && (forall text | Get(end.error, "message") == Some(Str(text)) ::
                  s.error.Some? && s.error.value.message == text)
  {
    hide Go, Step, FoldRun, QueueIn, Decide, BuildMock, OpenSince, OnlyDrawn, Drawn;
    var begin, end := OpAt(h, st, g, b), OpAt(h, st, g, e);
    SpanIsQueued(h, st, g, b, e, n, run);
    ReachedNext(h', st', run, Go(h, st, g, n).st.log, begin.name, begin.input,
                |QueueIn(FoldRun(map[], Go(h, st, g, e).st.log, run).queues, begin.name,
                         Key(begin.name, begin.input))|);
    s := ServedReply(h', st', begin.name, kind, begin.input, From(run, end.output, FailureOf(end.error), Some(end.ok)));
  }

  /** ... and a facade named like an effect, with the effect's recorded outcome. */
  lemma FacadeRepliesAsAnswered(log: seq<Trace.Record>, m: nat, run: string, h: Host, st: State,
                                kind: Option<string>, input: Json)
      returns (s: Served)
    requires m < |log| && log[m].Effect? && log[m].key == Key(log[m].name, input)
    requires var p := |QueueIn(FoldRun(map[], log[..m], run).queues, log[m].name, log[m].key)|;
             Reached(h, st, run, log, log[m].name, input, p)
    requires && !NeverSubstituted(log[m].name) && MockSpecOf(input).None?
             && (st.mode.Replay? ==> st.cursor.AtBegin(log[m].name, log[m].key))
             && Decide(st.spanMocks[|st.spanMocks| - 1], log[m].name, Facades(st.stack)).IsMockable()
    ensures Step(h, st, Begin(log[m].name, kind, input)).1 == Began(st.spanN + 1, Some(s))
    ensures s.output == log[m].output && s.error == log[m].error && (s.ok <==> log[m].error.None?)
  {
    hide Step, QueueIn, Decide, BuildMock, OnlyDrawn, Drawn, FoldRun;
    var r := log[m];
    EffectIsQueued(log[..m], r, run);
    assert log == (log[..m] + [r]) + log[m + 1..];
    QueuesGrow(map[], log[..m] + [r], log[m + 1..], run, r.name, r.key);
    ReachedNext(h, st, run, log, r.name, input, |QueueIn(FoldRun(map[], log[..m], run).queues, r.name, r.key)|);
    s := ServedReply(h, st, r.name, kind, input, From(run, r.output, r.error, None));
  }

  lemma EffectIsQueued(log: seq<Trace.Record>, r: Trace.Record, run: string)
    requires r.Effect?
    ensures QueueIn(FoldRun(map[], log + [r], run).queues, r.name, r.key) ==
            QueueIn(FoldRun(map[], log, run).queues, r.name, r.key) + [From(run, r.output, r.error, None)]
  {
    FoldsOn(map[], log, r, run);
  }

  // --- facades are counted ---

  /** A facade counts on the filters of the innermost index as an effect of its name would. */
  lemma FacadesAreCounted(h: Host, st: State, name: string, kind: Option<string>, input: Json)
    requires !NeverSubstituted(name) && st.spanMocks != [] && MockSpecOf(input).None?
    requires st.mode.Replay? ==> st.cursor.AtBegin(name, Key(name, input))
    requires !NeverMockable(name)
    ensures var mocks := Step(h, st, Begin(name, kind, input)).0.spanMocks;
            && |mocks| == |st.spanMocks|
            && var before, after := st.spanMocks[|mocks| - 1], mocks[|mocks| - 1];
               var excepted := Matched(before.except, name, Facades(st.stack));
               && after.exceptHits == before.exceptHits + (if excepted then 1 else 0)
               && after.onlyHits ==
                  before.onlyHits + (if !excepted && Matched(before.only, name, Facades(st.stack)) then 1 else 0)
  {
    hide BeginSpan, Decide, Counted, Matched, Take, NeverMockable, SlotFor;
    var idx := st.spanMocks[|st.spanMocks| - 1];
    var d := Decide(idx, name, Facades(st.stack));
    FacadeBeginIs(h, st, name, kind, input);
    assert !d.Plumbing? by { NoPlumbing(idx, name, Facades(st.stack)); }
    DecisionsAreCounted(idx, name, Facades(st.stack));
    TakeKeepsHits(Counted(idx, d), name, Key(name, input));
  }

  lemma NoPlumbing(idx: MockIndex, name: string, facades: seq<string>)
    requires !NeverMockable(name)
    ensures !Decide(idx, name, facades).Plumbing?
  {
    hide Hit;
  }

  lemma TakeKeepsHits(idx: MockIndex, name: string, key: Key)
    ensures var after := Take(idx, name, key).0; after.onlyHits == idx.onlyHits && after.exceptHits == idx.exceptHits
  {
  }
}
