/** The two counts a guest may read in the reply to `span.end` that a replay does not
    always reproduce: how many answers inside the span came from a mock, and how often the
    span's own filter decided. */
module ReplayCounts {
  import opened Options
  import opened Json
  import opened Trace
  import opened Mocks
  import opened Pipeline
  import opened Nesting
  import opened MockScopes
  import opened Shadows
  import opened Replaying
  import opened ReplayRuns

  /** The mocked answers, and how often the span's filter decided. */
  predicate SameCounts(a: SpanMeta, b: SpanMeta) {
    a.mocked == b.mocked && SameHits(a.mockFilter, b.mockFilter)
  }

  lemma EndCounts(h: Host, h': Host, s: Shadow, rec: State, rep: State, log: seq<Trace.Record>, op: Op)
    requires Sync(false, s, rec, rep, log) && op.End? && rec.stack != [] && Step(h, rec, op).0.log <= log
    ensures |s.touched| == |s.reloaded| == |rec.stack|
    ensures var a, b, top := Step(h, rec, op).1, Step(h', rep, op).1, |rec.stack| - 1;
            && a.Ended? && b.Ended? && (SameCounts(b.meta, a.meta) <==> !s.touched[top])
            && (!s.touched[top] && s.reloaded[top] ==> b.meta.mockFilter == a.meta.mockFilter)
  {
    hide Tracks, EraseAll, Hits, AfterClose, Level, CloseSpan;
    SameHeight(false, s, rec, rep, log);
    EndIs(h, rec, op.ok, op.output, op.error);
    assert AfterClose(h, rec, op.ok, op.output, op.error).log <= log;
    CloseSimulated(false, s, h, h', rec, rep, log, op.ok, op.output, op.error);
    EndIs(h', rep, op.ok, op.output, op.error);
    CountsTellTouched(false, s, rec.stack, rep.stack, rec.spanMocks);
    SameMockHeight(s, rec, rep, log);
  }

  lemma SameMockHeight(s: Shadow, rec: State, rep: State, log: seq<Trace.Record>)
    requires Sync(false, s, rec, rep, log)
    ensures rep.spanMocks == s.mocks && |s.mocks| == |rec.spanMocks|
  {
  }

  /** In a run that replays, the counts in the reply to an end come back exactly when the
      span has not been touched: no effect inside was answered from a mock, and none was
      counted by the span's own filter.  Then the list of inline records not served comes
      back too, if the span's index is the recorded one again. */
  lemma CountsComeBack(h: Host, h': Host, rec: State, rep: State, g: Guest, n: nat, k: nat, log: seq<Trace.Record>)
    requires log == Go(h, rec, g, n).st.log
    requires k < n && Starts(rec, rep, log)
    requires SameRuntime(h, h') && Blind(false, g) && Granted(h', rep.grants, log)
    requires FaithfulRun(h, h', log, rec, g, n) && SpecsReload(h, h', log, rec, g, n)
    requires OpAt(h, rec, g, k).End? && Go(h, rec, g, k).st.stack != []
    ensures var height := |Go(h, rec, g, k).st.stack|;
            var a, b := Go(h, rec, g, n).replies[k], Go(h', rep, g, n).replies[k];
            var s := Track(h, log, rec, g, k);
            && |s.touched| == |s.reloaded| == height && a.Ended? && b.Ended?
            && (SameCounts(b.meta, a.meta) <==> !s.touched[height - 1])
            && (!s.touched[height - 1] && s.reloaded[height - 1] ==> b.meta.mockFilter == a.meta.mockFilter)
  {
    hide Step, Sync, SameRuntime, Granted, FaithfulAt, OpReloads, VisibleAll, Blind, Track, Go;
    SimulatedUpTo(false, h, h', rec, rep, g, g, n, k, log);
    ReplyAt(h, rec, g, n, k);
    ReplyAt(h', rep, g, n, k);
    StepInLog(h, rec, g, n, k);
    EndCounts(h, h', Track(h, log, rec, g, k), Go(h, rec, g, k).st, Go(h', rep, g, k).st, log,
              OpAt(h, rec, g, k));
  }

  lemma ReplyAt(h: Host, st: State, g: Guest, n: nat, k: nat)
    requires k < n
    ensures Go(h, st, g, n).replies[k] == Step(h, Go(h, st, g, k).st, OpAt(h, st, g, k)).1
  {
    hide Step;
    GoPrefix(h, st, g, k + 1, n);
    assert Go(h, st, g, n).replies[..k + 1][k] == Go(h, st, g, n).replies[k];
  }

  lemma StepInLog(h: Host, rec: State, g: Guest, n: nat, k: nat)
    requires !rec.mode.Replay? && k < n
    ensures Step(h, Go(h, rec, g, k).st, OpAt(h, rec, g, k)).0.log <= Go(h, rec, g, n).st.log
  {
    hide Step;
    GoGrows(h, rec, g, k + 1, n);
  }

  // --- what it is to be touched ---

  /** The shadow has an entry per open span. */
  lemma StepFits(h: Host, st: State, s: Shadow, op: Op, log: seq<Trace.Record>)
    requires !st.mode.Replay? && |s.touched| == |st.stack|
    ensures |Shade(h, log, st, s, op).touched| == |Step(h, st, op).0.stack|
  {
    hide Call, EndMeta, CloseAll, Consulted, SlotFor, FilterHit, Answered, BeginSpan, EndSpan, AfterClose;
    match op
    case Begin(name, kind, input) =>
      BeginFits(h, st, name, kind, input);
      if MockSpecOf(input).Some? { ReloadsAlike(h, log, MockSpecOf(input).value, st.log); }
    case End(ok, output, error) => EndGrows(h, st, ok, output, error); EmptyEnd(h, st, ok, output, error);
    case Do(name, payload) => CallAddsEffects(h, st, name, payload);
    case CellDone(cell, ok, error, interrupted) => CloseAllGrows(h, st, cell);
  }

  lemma EmptyEnd(h: Host, st: State, ok: bool, output: Json, error: Json)
    ensures st.stack == [] ==> EndSpan(h, st, ok, output, error).0 == st
  {
    hide CloseSpan;
  }

  lemma BeginFits(h: Host, st: State, name: string, kind: Option<string>, input: Json)
    requires !st.mode.Replay?
    ensures |BeginSpan(h, st, name, kind, input).0.stack| == |st.stack| +
            if MockSpecOf(input).Some? && BuildMock(h, MockSpecOf(input).value, st.log).Err? then 0 else 1
  {
    hide SlotFor, Consulted, ServeSpan, PushSpan;
    if MockSpecOf(input).None? {
      hide BeginSpan;
      FacadeBeginIs(h, st, name, kind, input);
    } else if BuildMock(h, MockSpecOf(input).value, st.log).Ok? {
      hide BeginSpan;
      SpecBeginIs(h, st, name, kind, input, BuildMock(h, MockSpecOf(input).value, st.log).value);
    }
  }

  lemma {:induction false} TrackFits(h: Host, st: State, g: Guest, n: nat, log: seq<Trace.Record>)
    requires Fresh(st) && !st.mode.Replay?
    ensures |Track(h, log, st, g, n).touched| == |Go(h, st, g, n).st.stack| && !Go(h, st, g, n).st.mode.Replay?
  {
    hide Step, Shade;
    if n > 0 {
      TrackFits(h, st, g, n - 1, log);
      StepFits(h, Go(h, st, g, n - 1).st, Track(h, log, st, g, n - 1), OpAt(h, st, g, n - 1), log);
      StepGrows(h, Go(h, st, g, n - 1).st, OpAt(h, st, g, n - 1));
    }
  }

  /** Step j touches the span at height i: a call answered from a mock inside it, or
      counted by its own filter. */
  ghost predicate TouchesAt(h: Host, st: State, g: Guest, j: nat, i: nat) {
    var here, op := Go(h, st, g, j).st, OpAt(h, st, g, j);
    Answered(h, here, op) || (FilterHit(h, here, op) && InnermostOwner(here.stack, i))
  }

  ghost predicate TouchedBetween(h: Host, st: State, g: Guest, b: nat, k: nat, i: nat) {
    exists j: nat | b < j < k :: TouchesAt(h, st, g, j, i)
  }

  /** Step b begins the span at height i, which stays open at least until step k. */
  ghost predicate OpenSince(h: Host, st: State, g: Guest, b: nat, k: nat, i: nat) {
    && b < k && |Go(h, st, g, b).st.stack| == i
    && forall j: nat | b < j <= k :: |Go(h, st, g, j).st.stack| > i
  }

  /** A span is touched exactly when some step since its begin touched it. */
  lemma {:induction false} TouchedMeans(h: Host, st: State, g: Guest, b: nat, k: nat, i: nat, log: seq<Trace.Record>)
    requires Fresh(st) && !st.mode.Replay? && OpenSince(h, st, g, b, k, i)
    ensures |Track(h, log, st, g, k).touched| > i
    ensures Track(h, log, st, g, k).touched[i] <==> TouchedBetween(h, st, g, b, k, i)
    decreases k
  {
    hide Step, Answered, FilterHit, InnermostOwner, TouchedBetween, Go, Shade;
    TrackFits(h, st, g, b, log);
    TrackFits(h, st, g, k - 1, log);
    TrackFits(h, st, g, k, log);
    var here, s, op := Go(h, st, g, k - 1).st, Track(h, log, st, g, k - 1), OpAt(h, st, g, k - 1);
    if k == b + 1 {
      NewestUntouched(h, here, s, op, log);
      NoneYet(h, st, g, b, i);
    } else {
      TouchedMeans(h, st, g, b, k - 1, i, log);
      ShadeTouches(h, here, s, op, i, log);
      OneMore(h, st, g, b, k, i);
    }
  }

  lemma OneMore(h: Host, st: State, g: Guest, b: nat, k: nat, i: nat)
    requires b + 1 < k
    ensures TouchedBetween(h, st, g, b, k, i) <==> TouchedBetween(h, st, g, b, k - 1, i) || TouchesAt(h, st, g, k - 1, i)
  {
    hide TouchesAt;
  }

  lemma NoneYet(h: Host, st: State, g: Guest, b: nat, i: nat)
    ensures !TouchedBetween(h, st, g, b, b + 1, i)
  {
    hide TouchesAt;
  }

  lemma NewestUntouched(h: Host, st: State, s: Shadow, op: Op, log: seq<Trace.Record>)
    requires |s.touched| == |st.stack| && |Shade(h, log, st, s, op).touched| > |st.stack|
    ensures !Shade(h, log, st, s, op).touched[|st.stack|]
  {
    hide Answered, FilterHit, Consulted;
  }

  lemma ShadeTouches(h: Host, st: State, s: Shadow, op: Op, i: nat, log: seq<Trace.Record>)
    requires |s.touched| == |st.stack| && i < |s.touched| && i < |Shade(h, log, st, s, op).touched|
    ensures Shade(h, log, st, s, op).touched[i] <==>
            s.touched[i] || Answered(h, st, op) || (FilterHit(h, st, op) && InnermostOwner(st.stack, i))
  {
    hide Consulted, InnermostOwner, Moved, Step;
  }
}
