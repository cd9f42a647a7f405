/** Whole-run facts about Record and Mock mode: the span counters are exactly
    what a reader of the trace counts, spans are properly bracketed, and the
    mock stack follows the spans that own one. */
module Accounting {
  import opened Options
  import opened Json
  import opened Trace
  import opened Mocks
  import opened Pipeline
  import opened Brackets
  import opened Stretch

  function OwnedMocks(stack: seq<Frame>): nat {
    if stack == [] then 0
    else OwnedMocks(stack[..|stack| - 1]) + if stack[|stack| - 1].ownsMock then 1 else 0
  }

  /** The broker's counters and stacks agree with its own trace. */
  ghost predicate Agrees(log: seq<Trace.Record>, stack: seq<Frame>, spanN: nat, mutations: nat) {
    && Sound(log)
    && MaxId(log) <= spanN
    && Opened(log, stack)
    && TalliesAgree(log, stack)
    && mutations == Count(log).mutations
  }

  /** The frames on the stack are the spans a reader finds open, in order. */
  ghost predicate Opened(log: seq<Trace.Record>, stack: seq<Frame>) {
    |Open(log)| == |stack| && forall i :: 0 <= i < |stack| ==> Open(log)[i] == (stack[i].id, stack[i].name)
  }

  ghost predicate TalliesAgree(log: seq<Trace.Record>, stack: seq<Frame>) {
    forall i :: 0 <= i < |stack| ==> stack[i].tally == Since(log, stack[i].id)
  }

  /** ... and the mock stack holds one index per open span that owns one. */
  ghost predicate Coherent(st: State) {
    Agrees(st.log, st.stack, st.spanN, st.mutations) && |st.spanMocks| == OwnedMocks(st.stack)
  }

  lemma {:induction false} OwnedDependOnShape(a: seq<Frame>, b: seq<Frame>)
    requires SameShape(a, b)
    ensures OwnedMocks(a) == OwnedMocks(b)
  {
    if a != [] { OwnedDependOnShape(a[..|a| - 1], b[..|b| - 1]); }
  }

  lemma StretchKeepsCoherent(st: State, st': State)
    requires Coherent(st) && Within(st, st')
    ensures Coherent(st')
  {
    var news := st'.log[|st.log|..];
    assert st'.log == st.log + news;
    forall i | 0 <= i < |st'.stack| ensures st'.stack[i].tally == Since(st'.log, st'.stack[i].id) {
      SinceAppend(st.log, news, st.stack[i].id);
    }
    assert TopId(st) == Innermost(Open(st.log));
    EffectsAppend(st.log, news);
    CountConcat(st.log, news);
    OwnedDependOnShape(st.stack, st'.stack);
  }

  lemma ServeSpanKeeps(st: State, name: string, key: Key)
    ensures var st1 := ServeSpan(st, name, key).0;
            && st1 == st.(spanMocks := st1.spanMocks) && OnlyLastUsed(st.spanMocks, st1.spanMocks)
  {
    hide Decide, Take, Counted;
    if |st.spanMocks| > 0 {
      var idx := st.spanMocks[|st.spanMocks| - 1];
      TakeKeepsPolicy(idx, Decide(idx, name, Facades(st.stack)), name, key);
    }
  }

  lemma PushAgrees(log: seq<Trace.Record>, stack: seq<Frame>, spanN: nat, mutations: nat,
                   r: Trace.Record, f: Frame)
    requires Agrees(log, stack, spanN, mutations) && MaxId(log) < spanN
    requires r.SpanBegin? && r.id == spanN && r.parent == Innermost(Open(log))
    requires f.id == spanN && f.name == r.name && f.tally == ZERO
    ensures Agrees(log + [r], stack + [f], spanN, mutations)
  {
    hide Nested, Counting, Open, MaxId, Count, Since;
    ReadOn(log, r);
    OpenIdsBounded(log);
    forall i | 0 <= i < |stack + [f]| ensures (stack + [f])[i].tally == Since(log + [r], (stack + [f])[i].id) {
      SinceStep(log, r, (stack + [f])[i].id);
      if i < |stack| { assert Open(log)[i].0 < r.id; }
    }
  }

  lemma PushKeepsCoherent(st: State, name: string, kind: Option<string>, input: Json, owns: bool, slot: Option<Slot>)
    requires Agrees(st.log, st.stack, st.spanN, st.mutations) && MaxId(st.log) < st.spanN
    requires |st.spanMocks| == OwnedMocks(st.stack) + if owns then 1 else 0
    ensures Coherent(PushSpan(st, name, kind, input, owns, slot))
  {
    var st' := PushSpan(st, name, kind, input, owns, slot);
    PushAgrees(st.log, st.stack, st.spanN, st.mutations, st'.log[|st.log|], st'.stack[|st.stack|]);
    assert st'.stack[..|st'.stack| - 1] == st.stack;
  }

  lemma LaterIds(log: seq<Trace.Record>, stack: seq<Frame>, spanN: nat, mutations: nat)
    requires Agrees(log, stack, spanN, mutations)
    ensures Agrees(log, stack, spanN + 1, mutations) && MaxId(log) < spanN + 1
  {
  }

  lemma OpenKeepsCoherent(h: Host, st: State, name: string, kind: Option<string>, input: Json)
    requires Coherent(st) && MaxId(st.log) < st.spanN
    ensures Coherent(OpenSpan(h, st, name, kind, input).0)
    ensures OpenSpan(h, st, name, kind, input).0.mode == st.mode
  {
    match MockSpecOf(input) {
      case Some(spec) =>
        match BuildMock(h, spec, st.log) {
          case Err(_) =>
          case Ok(idx) =>
            PushKeepsCoherent(st.(spanMocks := st.spanMocks + [idx]), name, kind, input, true, None);
        }
      case None =>
        var (st3, slot) := ServeSpan(st, name, Key(name, input));
        ServeSpanKeeps(st, name, Key(name, input));
        PushKeepsCoherent(st3, name, kind, input, false, slot);
    }
  }

  lemma BeginKeepsCoherent(h: Host, st: State, name: string, kind: Option<string>, input: Json)
    requires Coherent(st) && !st.mode.Replay?
    ensures Coherent(BeginSpan(h, st, name, kind, input).0)
    ensures BeginSpan(h, st, name, kind, input).0.mode == st.mode
  {
    hide Agrees, OpenSpan, OwnedMocks;
    LaterIds(st.log, st.stack, st.spanN, st.mutations);
    assert Coherent(st.(spanN := st.spanN + 1));
    OpenKeepsCoherent(h, st.(spanN := st.spanN + 1), name, kind, input);
  }

  lemma PopAgrees(log: seq<Trace.Record>, stack: seq<Frame>, spanN: nat, mutations: nat,
                  r: Trace.Record, rest: seq<Frame>)
    requires Agrees(log, stack, spanN, mutations) && stack != []
    requires r.SpanEnd? && Follows(log, r)
    requires SameShape(stack[..|stack| - 1], rest) && Charged(stack[..|stack| - 1], rest, Weight(r))
    ensures Agrees(log + [r], rest, spanN, mutations)
  {
    hide Nested, Counting, Open, MaxId, Count, Since;
    ReadOn(log, r);
    forall i | 0 <= i < |rest| ensures rest[i].tally == Since(log + [r], rest[i].id) {
      SinceStep(log, r, stack[i].id);
    }
    forall i | 0 <= i < |rest| ensures Open(log + [r])[i] == (rest[i].id, rest[i].name) {
      assert rest[i] == stack[..|stack| - 1][i].(tally := rest[i].tally);
    }
  }

  lemma CloseKeepsCoherent(h: Host, st: State, top: Frame, ok: bool, output: Json, error: Json)
    requires Coherent(st.(stack := st.stack + [top]))
    ensures Coherent(CloseSpan(h, st, top, ok, output, error).0)
    ensures CloseSpan(h, st, top, ok, output, error).0.mode == st.mode
  {
    hide Nested, Counting, Open, Since, Count;
    var st' := CloseSpan(h, st, top, ok, output, error).0;
    var all := st.stack + [top];
    var r := st'.log[|st.log|];
    assert all[..|all| - 1] == st.stack && all[|all| - 1] == top;
    assert st'.log == st.log + [r];
    assert Open(st.log)[|st.stack|] == (top.id, top.name);
    assert top.tally == Since(st.log, top.id);
    assert Charged(st.stack, st'.stack, Weight(r)) && SameShape(st.stack, st'.stack);
    PopAgrees(st.log, all, st.spanN, st.mutations, r, st'.stack);
    OwnedDependOnShape(st.stack, st'.stack);
  }

  lemma EndKeepsCoherent(h: Host, st: State, ok: bool, output: Json, error: Json)
    requires Coherent(st) && !st.mode.Replay?
    ensures Coherent(EndSpan(h, st, ok, output, error).0)
    ensures EndSpan(h, st, ok, output, error).0.mode == st.mode
  {
    if st.stack != [] {
      var top, rest := st.stack[|st.stack| - 1], st.stack[..|st.stack| - 1];
      assert st.stack == rest + [top];
      assert st.(stack := rest).(stack := rest + [top]) == st;
      CloseKeepsCoherent(h, st.(stack := rest), top, ok, output, error);
    }
  }

  lemma {:induction false} CloseAllKeepsCoherent(h: Host, st: State, cell: string)
    requires Coherent(st) && !st.mode.Replay?
    ensures var (st', failure) := CloseAll(h, st, cell);
            Coherent(st') && failure.None? && st'.stack == [] && st'.mode == st.mode
    decreases |st.stack|
  {
    if st.stack != [] {
      EndKeepsCoherent(h, st, false, Null, UnclosedSpan(cell));
      CloseAllKeepsCoherent(h, EndSpan(h, st, false, Null, UnclosedSpan(cell)).0, cell);
    }
  }

  lemma CellAgrees(log: seq<Trace.Record>, spanN: nat, mutations: nat, r: Trace.Record)
    requires Agrees(log, [], spanN, mutations) && r.Cell?
    ensures Agrees(log + [r], [], spanN, mutations)
  {
    ReadOn(log, r);
  }

  lemma FinishKeepsCoherent(h: Host, st: State, cell: string, ok: bool, error: Json, interrupted: bool)
    requires Coherent(st) && !st.mode.Replay?
    ensures var (st', reply) := FinishCell(h, st, cell, ok, error, interrupted);
            && Coherent(st') && st'.mode == st.mode
            && st'.stack == [] && st'.spanMocks == [] && reply == CellClosed
  {
    CloseAllKeepsCoherent(h, st, cell);
    var st1 := CloseAll(h, st, cell).0;
    CellAgrees(st1.log, st1.spanN, st1.mutations, Cell(cell, ok, error, interrupted));
  }

  /** Every operation keeps the counters, the brackets and the mock stack right;
      finishing a cell leaves no span and no span-scoped mock behind. */
  lemma StepKeepsCoherent(h: Host, st: State, op: Op)
    requires Coherent(st) && !st.mode.Replay?
    ensures var (st', reply) := Step(h, st, op);
            && Coherent(st') && st'.mode == st.mode
            && (op.CellDone? ==> st'.stack == [] && st'.spanMocks == [] && reply == CellClosed)
  {
    match op
    case Begin(name, kind, input) => BeginKeepsCoherent(h, st, name, kind, input);
    case End(ok, output, error) => EndKeepsCoherent(h, st, ok, output, error);
    case Do(name, payload) =>
      CallIsStretch(h, st, name, payload);
      StretchKeepsCoherent(st, Call(h, st, name, payload).0);
    case CellDone(cell, ok, error, interrupted) =>
      FinishKeepsCoherent(h, st, cell, ok, error, interrupted);
  }

  /** The whole-run invariant. */
  lemma {:induction false} RunsAreCoherent(h: Host, st: State, ops: seq<Op>)
    requires Fresh(st) && !st.mode.Replay?
    ensures Coherent(StepAll(h, st, ops)) && !StepAll(h, st, ops).mode.Replay?
  {
    if ops != [] {
      RunsAreCoherent(h, st, ops[..|ops| - 1]);
      StepKeepsCoherent(h, StepAll(h, st, ops[..|ops| - 1]), ops[|ops| - 1]);
    }
  }

  /** Conservation, over every run: each span-end record written by a Record or
      Mock mode broker carries exactly the weight of the records between it and
      its begin, and the run-level mutation count is that of the whole trace. */
  lemma CountersAreConserved(h: Host, st: State, ops: seq<Op>, end: State, j: nat) returns (i: nat)
    requires Fresh(st) && !st.mode.Replay? && end == StepAll(h, st, ops)
    requires j < |end.log| && end.log[j].SpanEnd?
    ensures i < j && end.log[i].SpanBegin? && end.log[i].id == end.log[j].id && end.log[i].name == end.log[j].name
    ensures Tally(end.log[j].smeta.effects, end.log[j].smeta.mutations, end.log[j].smeta.mocked)
            == Count(end.log[i + 1..j])
    ensures end.mutations == Count(end.log).mutations
  {
    hide StepAll, Count, Sound;
    RunsAreCoherent(h, st, ops);
    i := EndCountsBetween(end.log, j);
  }

  /** The mock stack is exactly as deep as the owners that are open, and the frames are
      the spans the trace has open. */
  lemma MockStackFollowsOwners(h: Host, st: State, ops: seq<Op>, end: State)
    requires Fresh(st) && !st.mode.Replay? && end == StepAll(h, st, ops)
    ensures |end.spanMocks| == OwnedMocks(end.stack)
    ensures Opened(end.log, end.stack)
  {
    hide StepAll;
    RunsAreCoherent(h, st, ops);
  }
}
