/** What a replay writes, read as a trace: as well bracketed as the recording, so its tree
    view is exact too -- although a replayed effect is marked as mocked and not counted so. */
module ReplayedTraces {
  import opened Options
  import opened Trace
  import opened Pipeline
  import opened Brackets
  import opened Nesting
  import opened TraceView
  import opened Replaying
  import opened ReplayRuns

  /** The view leaves out nothing brackets are read from. */
  lemma {:induction false} EraseKeepsBrackets(exact: bool, a: seq<Trace.Record>, b: seq<Trace.Record>)
    requires EraseAll(exact, a) == EraseAll(exact, b)
    ensures |b| == |a| && Open(b) == Open(a) && MaxId(b) == MaxId(a)
    ensures Nested(b) <==> Nested(a)
    decreases |a|
  {
    hide Open, MaxId, Nested, Erase;
    assert |EraseAll(exact, a)| == |a| && |EraseAll(exact, b)| == |b|;
    if a != [] {
      var n := |a| - 1;
      assert Erase(exact, a[n]) == EraseAll(exact, a)[n] == EraseAll(exact, b)[n] == Erase(exact, b[n]);
      assert EraseAll(exact, a[..n]) == EraseAll(exact, a)[..n];
      assert EraseAll(exact, b[..n]) == EraseAll(exact, b)[..n];
      EraseKeepsBrackets(exact, a[..n], b[..n]);
      assert a[..n] + [a[n]] == a && b[..n] + [b[n]] == b;
      ReadOn(a[..n], a[n]);
      ReadOn(b[..n], b[n]);
      SameBracket(exact, a[..n], a[n], b[..n], b[n]);
    }
  }

  lemma SameBracket(exact: bool, a: seq<Trace.Record>, x: Trace.Record, b: seq<Trace.Record>, y: Trace.Record)
    requires Open(b) == Open(a) && MaxId(b) == MaxId(a) && Erase(exact, x) == Erase(exact, y)
    ensures Nests(b, y) <==> Nests(a, x)
    ensures y.SpanBegin? == x.SpanBegin? && y.SpanEnd? == x.SpanEnd?
    ensures x.SpanBegin? ==> y.id == x.id && y.name == x.name
  {
    hide Open, MaxId, Blur;
  }

  /** The operations of a guest's run, as a list. */
  function OpsOf(h: Host, st: State, g: Guest, n: nat): (ops: seq<Op>)
    ensures |ops| == n
  {
    if n == 0 then [] else OpsOf(h, st, g, n - 1) + [OpAt(h, st, g, n - 1)]
  }

  lemma {:induction false} GoIsStepAll(h: Host, st: State, g: Guest, n: nat)
    ensures Go(h, st, g, n).st == StepAll(h, st, OpsOf(h, st, g, n))
  {
    hide Step;
    if n > 0 {
      GoIsStepAll(h, st, g, n - 1);
      assert OpsOf(h, st, g, n)[..n - 1] == OpsOf(h, st, g, n - 1);
    }
  }

  /** The replay of a recording that ends with a finished cell drills exactly. */
  lemma ReplayDrillsExactly(exact: bool, h: Host, h': Host, rec: State, rep: State, g: Guest, n: nat, x: nat,
                            log: seq<Trace.Record>)
    requires log == Go(h, rec, g, n).st.log
    requires Starts(rec, rep, log) && n > 0 && OpAt(h, rec, g, n - 1).CellDone?
    requires SameRuntime(h, h') && Blind(exact, g) && Granted(h', rep.grants, log)
    requires FaithfulRun(h, h', log, rec, g, n) && SpecsReload(h, h', log, rec, g, n)
    requires exact ==> MocksAsideRun(h, log, rec, g, n)
    ensures var log := Go(h', rep, g, n).st.log;
            && Closed(log)
            && multiset(DrillFrom(log, None))[x] ==
               if 1 <= x <= |log| && IsEntry(log[x - 1]) then 1 else 0
  {
    hide Go, Nested, Open, FaithfulRun, SpecsReload, MocksAsideRun, Granted, SameRuntime, Blind, EraseAll, StepAll,
         NoLostEnd, DrillFrom, VisibleAll;
    RecordThenReplay(exact, h, h', rec, rep, g, n, log);
    GoIsStepAll(h, rec, g, n);
    var ops := OpsOf(h, rec, g, n);
    StepAllKeepsMode(h, rec, ops);
    FinishedRunsAreClosed(h, rec, ops);
    EraseKeepsBrackets(exact, log, Go(h', rep, g, n).st.log);
    DrillIsExact(Go(h', rep, g, n).st.log, x);
  }

  // --- what its collapsed rows say ---

  lemma ErasedAt(exact: bool, a: seq<Trace.Record>, b: seq<Trace.Record>, k: nat)
    requires EraseAll(exact, a) == EraseAll(exact, b) && k < |a|
    ensures |b| == |a| && Erase(exact, b[k]) == Erase(exact, a[k])
  {
    hide Erase;
    assert |EraseAll(exact, a)| == |a| && |EraseAll(exact, b)| == |b|;
    assert EraseAll(exact, a)[k] == EraseAll(exact, b)[k];
  }

  /** A replayed effect keeps its class, and an end record its mutations. */
  lemma ErasedRow(exact: bool, x: Trace.Record, y: Trace.Record)
    requires Erase(exact, y) == Erase(exact, x)
    ensures y.SpanEnd? == x.SpanEnd? && y.SpanBegin? == x.SpanBegin? && (Mutates(y) <==> Mutates(x))
    ensures x.SpanBegin? ==> y.id == x.id
    ensures x.SpanEnd? ==>
      && y.id == x.id && y.smeta.mutations == x.smeta.mutations && y.smeta.kind == x.smeta.kind
      && (y.smeta.servedFrom.Some? <==> x.smeta.servedFrom.Some?)
  {
  }

  lemma ErasedMutates(exact: bool, a: seq<Trace.Record>, b: seq<Trace.Record>, i: nat, j: nat)
    requires EraseAll(exact, a) == EraseAll(exact, b) && i <= j <= |a| == |b| && AnyMutates(a[i..j])
    ensures AnyMutates(b[i..j])
  {
    hide EraseAll, Mutates;
    var r :| r in a[i..j] && Mutates(r);
    var k :| 0 <= k < |a[i..j]| && a[i..j][k] == r;
    ErasedAt(exact, a, b, i + k);
    ErasedRow(exact, a[i + k], b[i + k]);
    assert b[i..j][k] == b[i + k];
  }

  /** A collapsed row of the trace a faithful replay writes is marked as mutating exactly
      when a mutating effect stands between the span's begin and end, at any depth -- or when
      the span was served whole and calls itself a mutator. */
  lemma ReplayedRowTellsMutations(exact: bool, h: Host, h': Host, rec: State, rep: State, g: Guest, n: nat,
                                  log: seq<Trace.Record>, j: nat) returns (i: nat)
    requires log == Go(h, rec, g, n).st.log
    requires Starts(rec, rep, log) && SameRuntime(h, h') && Blind(exact, g) && Granted(h', rep.grants, log)
    requires FaithfulRun(h, h', log, rec, g, n) && SpecsReload(h, h', log, rec, g, n)
    requires exact ==> MocksAsideRun(h, log, rec, g, n)
    requires var written := Go(h', rep, g, n).st.log; j < |written| && written[j].SpanEnd?
    ensures var written := Go(h', rep, g, n).st.log;
            && i < j && written[i].SpanBegin? && written[i].id == written[j].id
            && (RowOf(written[j], j + 1).cls.Mutate? <==>
                AnyMutates(written[i + 1..j])
                || (written[j].smeta.servedFrom.Some? && written[j].smeta.kind == Some("mutator")))
  {
    hide Go, FaithfulRun, SpecsReload, MocksAsideRun, Granted, SameRuntime, Blind, EraseAll, StepAll, VisibleAll,
         Mutates,
         AnyMutates, Starts, Erase;
    RecordThenReplay(exact, h, h', rec, rep, g, n, log);
    var written := Go(h', rep, g, n).st.log;
    SameLength(exact, log, written);
    ErasedAt(exact, log, written, j);
    ErasedRow(exact, log[j], written[j]);
    GoIsStepAll(h, rec, g, n);
    FreshStart(rec, rep, log);
    i := RowTellsMutations(h, rec, OpsOf(h, rec, g, n), Go(h, rec, g, n).st, j);
    ErasedAt(exact, log, written, i);
    ErasedRow(exact, log[i], written[i]);
    if AnyMutates(log[i + 1..j]) {
      ErasedMutates(exact, log, written, i + 1, j);
    } else if AnyMutates(written[i + 1..j]) {
      ErasedMutates(exact, written, log, i + 1, j);
    }
  }

  lemma SameLength(exact: bool, a: seq<Trace.Record>, b: seq<Trace.Record>)
    requires EraseAll(exact, a) == EraseAll(exact, b)
    ensures |a| == |b|
  {
    assert |EraseAll(exact, a)| == |a| && |EraseAll(exact, b)| == |b|;
  }

  lemma FreshStart(rec: State, rep: State, log: seq<Trace.Record>)
    requires Starts(rec, rep, log)
    ensures Fresh(rec) && !rec.mode.Replay?
  {
  }
}
