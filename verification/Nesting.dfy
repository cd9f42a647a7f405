/** Span brackets in every mode, replays included: a finished cell leaves a closed trace
    exactly when no span end was lost to a divergence on the way. */
module Nesting {
  import opened Options
  import opened Json
  import opened Trace
  import opened Mocks
  import opened Pipeline
  import opened Brackets
  import opened Stretch
  import opened Accounting

  /** The frames on the stack are the spans the trace has open. */
  ghost predicate Bracketed(st: State) {
    Nested(st.log) && MaxId(st.log) <= st.spanN && Opened(st.log, st.stack)
  }

  /** An end that diverges has popped its frame and writes no record. */
  predicate LosesEnd(h: Host, st: State, op: Op) {
    match op
    case End(ok, _, _) => st.mode.Replay? && st.stack != [] && !st.cursor.AtEnd(st.stack[|st.stack| - 1].name, ok)
    case CellDone(cell, _, _, _) => CloseAll(h, st, cell).1.Some?
    case _ => false
  }

  ghost predicate NoLostEnd(h: Host, st: State, ops: seq<Op>) {
    forall k | 0 <= k < |ops| :: !LosesEnd(h, StepAll(h, st, ops[..k]), ops[k])
  }

  // --- an effect, in any mode ---

  /** Only effect records of the current span were added. */
  ghost predicate OnlyEffects(st: State, st': State) {
    && st.log <= st'.log && EffectsIn(st'.log[|st.log|..], TopId(st))
    && SameShape(st.stack, st'.stack) && st'.spanN == st.spanN && st'.mode == st.mode
  }

  lemma OnlyEffectsChains(a: State, b: State, c: State)
    requires OnlyEffects(a, b) && OnlyEffects(b, c)
    ensures OnlyEffects(a, c)
  {
    SameTop(a, b);
    assert c.log[|a.log|..] == b.log[|a.log|..] + c.log[|b.log|..];
  }

  lemma WrittenEffect(st: State, cls: Class, r: Trace.Record)
    requires r.Effect? && r.span == TopId(st)
    ensures OnlyEffects(st, Write(Bump(st, cls, false), r))
  {
    assert (st.log + [r])[|st.log|..] == [r];
  }

  lemma ThroughIsEffect(st: State, name: string, input: Json, key: Key, cls: Class)
    requires st.cursor.AtRecord() && st.cursor.log[st.cursor.pos].Effect?
    ensures OnlyEffects(st, WriteThrough(st, name, input, key, cls))
  {
    var st1 := st.(cursor := st.cursor.Advance());
    var st' := WriteThrough(st, name, input, key, cls);
    assert TopId(Bump(st1, cls, false)) == TopId(st1);
    WrittenEffect(st1, cls, st'.log[|st.log|]);
  }

  lemma {:induction false} DrainIsEffects(h: Host, st: State, name: string, key: Key)
    ensures OnlyEffects(st, Drain(h, st, name, key))
    decreases |st.cursor.log| - st.cursor.pos
  {
    hide WriteThrough, Classify;
    if st.cursor.HostedMismatch(name, key) {
      var r := st.cursor.log[st.cursor.pos];
      var st1 := WriteThrough(st, r.name, r.input, r.key, Classify(h, r.name, r.input));
      ThroughIsEffect(st, r.name, r.input, r.key, Classify(h, r.name, r.input));
      ThroughAdvances(st, r.name, r.input, r.key, Classify(h, r.name, r.input));
      DrainIsEffects(h, st1, name, key);
      OnlyEffectsChains(st, st1, Drain(h, st1, name, key));
    } else {
      Unchanged(st);
    }
  }

  lemma ThroughAdvances(st: State, name: string, input: Json, key: Key, cls: Class)
    requires st.cursor.AtRecord() && st.cursor.log[st.cursor.pos].Effect?
    ensures WriteThrough(st, name, input, key, cls).cursor == st.cursor.Advance()
  {
  }

  lemma Unchanged(st: State)
    ensures OnlyEffects(st, st)
  {
    assert st.log[|st.log|..] == [];
  }

  lemma CallAddsEffects(h: Host, st: State, name: string, given: Json)
    ensures OnlyEffects(st, Call(h, st, name, given).0)
  {
    hide CallAdmitted, Bump, Drain, WriteThrough, OnlyEffects, Within;
    Unchanged(st);
    var m := if name == "blob.put" then h.materialize(given) else Ok(given);
    if !st.mode.Replay? {
      CallIsStretch(h, st, name, given);
      WithinAddsEffects(st, Call(h, st, name, given).0);
    } else if m.Ok? {
      var cls := Classify(h, name, m.value);
      if IsDenied(h, st, name, m.value) {
        RefusalIsEffect(st, name, m.value, cls, Denial(CapOf(h, name, m.value), name));
      } else {
        ReplayAddsEffects(h, st, name, m.value);
      }
    }
  }

  lemma WithinAddsEffects(st: State, st': State)
    requires Within(st, st')
    ensures OnlyEffects(st, st')
  {
  }

  lemma RefusalIsEffect(st: State, name: string, payload: Json, cls: Class, f: Failure)
    ensures OnlyEffects(st, WriteRefusal(st, name, payload, cls, f, Unmocked))
  {
    var st' := WriteRefusal(st, name, payload, cls, f, Unmocked);
    WrittenEffect(st, cls, st'.log[|st.log|]);
  }

  lemma ReplayAddsEffects(h: Host, st: State, name: string, payload: Json)
    ensures OnlyEffects(st, ReplayCall(h, st, name, payload).0)
  {
    hide Drain, WriteThrough, Classify;
    var key := Key(name, payload);
    var st1 := Drain(h, st, name, key);
    DrainIsEffects(h, st, name, key);
    if st1.cursor.AtEffect(name, key) {
      var st2 := WriteThrough(st1, name, payload, key, Classify(h, name, payload));
      ThroughIsEffect(st1, name, payload, key, Classify(h, name, payload));
      OnlyEffectsChains(st, st1, st2);
      var st3 := LogRun(st2, name, payload);
      assert OnlyEffects(st, st3);
    }
  }

  // --- one step ---

  lemma EffectsKeepBracketed(st: State, st': State)
    requires Bracketed(st) && OnlyEffects(st, st')
    ensures Bracketed(st')
  {
    hide Nested, Counting, Open, MaxId;
    var news := st'.log[|st.log|..];
    assert st'.log == st.log + news;
    assert TopId(st) == Innermost(Open(st.log));
    EffectsAppend(st.log, news);
  }

  /** A begin record and its frame, or nothing. */
  predicate Pushed(st: State, st': State, id: nat) {
    || (st'.log == st.log && st'.stack == st.stack)
    || (&& |st'.log| == |st.log| + 1 && st'.log == st.log + [st'.log[|st.log|]]
        && |st'.stack| == |st.stack| + 1 && st'.stack == st.stack + [st'.stack[|st.stack|]]
        && var r, f := st'.log[|st.log|], st'.stack[|st.stack|];
           r.SpanBegin? && r.id == id == f.id && r.name == f.name && r.parent == TopId(st))
  }

  lemma PushPushes(st: State, name: string, kind: Option<string>, input: Json, owns: bool, slot: Option<Slot>)
    ensures var st' := PushSpan(st, name, kind, input, owns, slot);
            Pushed(st, st', st.spanN) && st'.spanN == st.spanN && st'.mode == st.mode
  {
  }

  lemma OpenPushes(h: Host, st: State, name: string, kind: Option<string>, input: Json)
    ensures var st' := OpenSpan(h, st, name, kind, input).0;
            Pushed(st, st', st.spanN) && st'.spanN == st.spanN && st'.mode == st.mode
  {
    hide PushSpan, ServeSpan, Pushed, BuildMock;
    assert Pushed(st, st, st.spanN) by { NothingPushed(st); }
    match MockSpecOf(input)
    case Some(spec) =>
      if BuildMock(h, spec, st.log).Ok? {
        var st1 := st.(spanMocks := st.spanMocks + [BuildMock(h, spec, st.log).value]);
        PushPushes(st1, name, kind, input, true, None);
        SamePushed(st, st1, PushSpan(st1, name, kind, input, true, None));
      }
    case None =>
      var (st1, slot) := ServeSpan(st, name, Key(name, input));
      ServeSpanKeeps(st, name, Key(name, input));
      PushPushes(st1, name, kind, input, false, slot);
      SamePushed(st, st1, PushSpan(st1, name, kind, input, false, slot));
  }

  lemma NothingPushed(st: State)
    ensures Pushed(st, st, st.spanN)
  {
  }

  lemma SamePushed(st: State, st1: State, st': State)
    requires st1.log == st.log && st1.stack == st.stack && st1.spanN == st.spanN && Pushed(st1, st', st.spanN)
    ensures Pushed(st, st', st.spanN)
  {
  }

  lemma BeginPushes(h: Host, st: State, name: string, kind: Option<string>, input: Json)
    ensures var st' := BeginSpan(h, st, name, kind, input).0;
            Pushed(st, st', st.spanN + 1) && st'.spanN == st.spanN + 1 && st'.mode == st.mode
  {
    hide OpenSpan;
    OpenPushes(h, st.(spanN := st.spanN + 1), name, kind, input);
    OpenPushes(h, st.(spanN := st.spanN + 1, cursor := st.cursor.Advance()), name, kind, input);
  }

  lemma BeginKeepsBracketed(h: Host, st: State, name: string, kind: Option<string>, input: Json)
    requires Bracketed(st)
    ensures Bracketed(BeginSpan(h, st, name, kind, input).0)
  {
    hide Nested, Counting, Open, MaxId, BeginSpan;
    BeginPushes(h, st, name, kind, input);
    var st' := BeginSpan(h, st, name, kind, input).0;
    if |st'.stack| > |st.stack| {
      ReadOn(st.log, st'.log[|st.log|]);
      OpenIdsBounded(st.log);
    }
  }

  lemma CloseKeepsBracketed(h: Host, st: State, rest: State, top: Frame, ok: bool, output: Json, error: Json)
    requires Bracketed(st) && st.stack == rest.stack + [top] && rest.log == st.log && rest.spanN == st.spanN
    ensures Bracketed(CloseSpan(h, rest, top, ok, output, error).0)
  {
    hide Nested, Counting, Open, MaxId, EndMeta;
    var st' := CloseSpan(h, rest, top, ok, output, error).0;
    var r := st'.log[|st.log|];
    assert st'.log == st.log + [r];
    assert Open(st.log)[|rest.stack|] == (top.id, top.name);
    ReadOn(st.log, r);
    forall i | 0 <= i < |st'.stack| ensures Open(st'.log)[i] == (st'.stack[i].id, st'.stack[i].name) {
      assert st'.stack[i] == rest.stack[i].(tally := st'.stack[i].tally) && rest.stack[i] == st.stack[i];
    }
  }

  lemma EndKeepsBracketed(h: Host, st: State, ok: bool, output: Json, error: Json)
    requires Bracketed(st) && !LosesEnd(h, st, End(ok, output, error))
    ensures Bracketed(EndSpan(h, st, ok, output, error).0)
  {
    hide CloseSpan, Bracketed;
    if st.stack != [] {
      var top, rest := st.stack[|st.stack| - 1], st.stack[..|st.stack| - 1];
      assert st.stack == rest + [top];
      var st1 := st.(stack := rest);
      var st2 := if st.mode.Replay? then st1.(cursor := st1.cursor.Advance()) else st1;
      CloseKeepsBracketed(h, st, st2, top, ok, output, error);
    }
  }

  lemma {:induction false} CloseAllKeepsBracketed(h: Host, st: State, cell: string)
    requires Bracketed(st) && CloseAll(h, st, cell).1.None?
    ensures Bracketed(CloseAll(h, st, cell).0) && CloseAll(h, st, cell).0.stack == []
    decreases |st.stack|
  {
    hide Bracketed;
    if st.stack != [] {
      EndKeepsBracketed(h, st, false, Null, UnclosedSpan(cell));
      CloseAllKeepsBracketed(h, EndSpan(h, st, false, Null, UnclosedSpan(cell)).0, cell);
    }
  }

  lemma FinishKeepsBracketed(h: Host, st: State, cell: string, ok: bool, error: Json, interrupted: bool)
    requires Bracketed(st) && CloseAll(h, st, cell).1.None?
    ensures var st' := FinishCell(h, st, cell, ok, error, interrupted).0;
            Bracketed(st') && st'.stack == []
  {
    hide Nested, Counting, MaxId, CloseAll;
    CloseAllKeepsBracketed(h, st, cell);
    ReadOn(CloseAll(h, st, cell).0.log, Cell(cell, ok, error, interrupted));
  }

  /** In every mode, whatever the operation, unless it loses an end. */
  lemma StepKeepsBracketed(h: Host, st: State, op: Op)
    requires Bracketed(st) && !LosesEnd(h, st, op)
    ensures Bracketed(Step(h, st, op).0)
    ensures op.CellDone? ==> Step(h, st, op).0.stack == []
  {
    hide Call, BeginSpan, EndSpan, FinishCell, Bracketed, OnlyEffects;
    match op
    case Begin(name, kind, input) => BeginKeepsBracketed(h, st, name, kind, input);
    case End(ok, output, error) => EndKeepsBracketed(h, st, ok, output, error);
    case Do(name, payload) =>
      CallAddsEffects(h, st, name, payload);
      EffectsKeepBracketed(st, Call(h, st, name, payload).0);
    case CellDone(cell, ok, error, interrupted) => FinishKeepsBracketed(h, st, cell, ok, error, interrupted);
  }

  lemma {:induction false} RunsAreBracketed(h: Host, st: State, ops: seq<Op>)
    requires Fresh(st) && NoLostEnd(h, st, ops)
    ensures Bracketed(StepAll(h, st, ops))
  {
    hide Step, Bracketed;
    if ops == [] {
      FreshIsBracketed(st);
    } else {
      var most := ops[..|ops| - 1];
      forall k | 0 <= k < |most| ensures !LosesEnd(h, StepAll(h, st, most[..k]), most[k]) {
        assert most[..k] == ops[..k];
      }
      RunsAreBracketed(h, st, most);
      StepKeepsBracketed(h, StepAll(h, st, most), ops[|ops| - 1]);
    }
  }

  lemma FreshIsBracketed(st: State)
    requires Fresh(st)
    ensures Bracketed(st)
  {
  }

  // --- a lost end is never made up for ---

  /** Spans begun less spans ended. */
  function Net(log: seq<Trace.Record>): int {
    if log == [] then 0
    else
      var r := log[|log| - 1];
      Net(log[..|log| - 1]) + if r.SpanBegin? then 1 else if r.SpanEnd? then -1 else 0
  }

  lemma {:induction false} NetIsOpen(log: seq<Trace.Record>)
    requires Nested(log)
    ensures Net(log) == |Open(log)|
  {
    if log != [] { NetIsOpen(log[..|log| - 1]); }
  }

  lemma NetStep(log: seq<Trace.Record>, r: Trace.Record)
    ensures Net(log + [r]) == Net(log) + if r.SpanBegin? then 1 else if r.SpanEnd? then -1 else 0
  {
    Appended(log, r);
  }

  lemma {:induction false} NetOfEffects(log: seq<Trace.Record>, news: seq<Trace.Record>, span: Option<nat>)
    requires EffectsIn(news, span)
    ensures Net(log + news) == Net(log)
  {
    if news == [] {
      assert log + news == log;
    } else {
      var most := news[..|news| - 1];
      NetOfEffects(log, most, span);
      assert log + news == (log + most) + [news[|news| - 1]];
      NetStep(log + most, news[|news| - 1]);
    }
  }

  /** Spans the trace has open that no frame stands for. */
  function Lost(st: State): int { Net(st.log) - |st.stack| }

  lemma CloseLoses(h: Host, st: State, top: Frame, ok: bool, output: Json, error: Json)
    ensures Lost(CloseSpan(h, st, top, ok, output, error).0) == Lost(st) - 1
    ensures CloseSpan(h, st, top, ok, output, error).1.Ended?
  {
    hide EndMeta, Net;
    var st' := CloseSpan(h, st, top, ok, output, error).0;
    NetStep(st.log, st'.log[|st.log|]);
  }

  lemma EndLoses(h: Host, st: State, ok: bool, output: Json, error: Json)
    ensures Lost(EndSpan(h, st, ok, output, error).0) ==
            Lost(st) + if LosesEnd(h, st, End(ok, output, error)) then 1 else 0
    ensures EndSpan(h, st, ok, output, error).1.Failed? <==> LosesEnd(h, st, End(ok, output, error)) || st.stack == []
  {
    hide CloseSpan, Net;
    if st.stack != [] {
      var top, popped := st.stack[|st.stack| - 1], st.(stack := st.stack[..|st.stack| - 1]);
      CloseLoses(h, popped, top, ok, output, error);
      CloseLoses(h, popped.(cursor := popped.cursor.Advance()), top, ok, output, error);
    }
  }

  lemma {:induction false} CloseAllLoses(h: Host, st: State, cell: string)
    ensures Lost(CloseAll(h, st, cell).0) == Lost(st) + if CloseAll(h, st, cell).1.Some? then 1 else 0
    decreases |st.stack|
  {
    hide EndSpan, Lost;
    if st.stack != [] {
      EndLoses(h, st, false, Null, UnclosedSpan(cell));
      EndPops(h, st, UnclosedSpan(cell));
      var (st1, r) := EndSpan(h, st, false, Null, UnclosedSpan(cell));
      if !r.Failed? { CloseAllLoses(h, st1, cell); }
    }
  }

  lemma EndPops(h: Host, st: State, error: Json)
    requires st.stack != []
    ensures |EndSpan(h, st, false, Null, error).0.stack| == |st.stack| - 1
  {
  }

  lemma StepLoses(h: Host, st: State, op: Op)
    ensures Lost(Step(h, st, op).0) == Lost(st) + if LosesEnd(h, st, op) then 1 else 0
  {
    hide Call, BeginSpan, EndSpan, CloseAll, Net;
    var st' := Step(h, st, op).0;
    match op
    case Begin(name, kind, input) =>
      BeginPushes(h, st, name, kind, input);
      if |st'.stack| > |st.stack| { NetStep(st.log, st'.log[|st.log|]); }
    case End(ok, output, error) => EndLoses(h, st, ok, output, error);
    case Do(name, payload) =>
      CallAddsEffects(h, st, name, payload);
      NetOfEffects(st.log, st'.log[|st.log|..], TopId(st));
      assert st'.log == st.log + st'.log[|st.log|..];
    case CellDone(cell, ok, error, interrupted) =>
      CloseAllLoses(h, st, cell);
      NetStep(CloseAll(h, st, cell).0.log, Cell(cell, ok, error, interrupted));
  }

  lemma {:induction false} RunLoses(h: Host, st: State, ops: seq<Op>, k: nat)
    requires Fresh(st) && k <= |ops|
    ensures Lost(StepAll(h, st, ops)) >= Lost(StepAll(h, st, ops[..k])) >= 0
    ensures k < |ops| && LosesEnd(h, StepAll(h, st, ops[..k]), ops[k]) ==> Lost(StepAll(h, st, ops)) > 0
    decreases |ops|
  {
    hide Step, Lost, LosesEnd;
    assert ops[..|ops|] == ops;
    if ops == [] {
      assert Lost(st) == 0 by { FreshLosesNothing(st); }
    } else {
      var most := ops[..|ops| - 1];
      StepLoses(h, StepAll(h, st, most), ops[|ops| - 1]);
      if k < |ops| {
        assert most[..k] == ops[..k];
        RunLoses(h, st, most, k);
      } else {
        RunLoses(h, st, most, |most|);
      }
    }
  }

  lemma FreshLosesNothing(st: State)
    requires Fresh(st)
    ensures Lost(st) == 0
  {
  }

  /** All spans of the trace are closed. */
  ghost predicate Closed(log: seq<Trace.Record>) {
    Nested(log) && Open(log) == []
  }

  /** In every mode: the trace a run leaves when a cell is done is properly closed
      exactly when no end diverged in the run. */
  lemma FinishedRunsAreClosed(h: Host, st: State, ops: seq<Op>)
    requires Fresh(st) && ops != [] && ops[|ops| - 1].CellDone?
    ensures Closed(StepAll(h, st, ops).log) <==> NoLostEnd(h, st, ops)
  {
    hide Step, LosesEnd, Open, Nested;
    var end := StepAll(h, st, ops);
    if NoLostEnd(h, st, ops) {
      RunsAreBracketed(h, st, ops);
      var most := ops[..|ops| - 1];
      forall k | 0 <= k < |most| ensures !LosesEnd(h, StepAll(h, st, most[..k]), most[k]) {
        assert most[..k] == ops[..k];
      }
      RunsAreBracketed(h, st, most);
      StepKeepsBracketed(h, StepAll(h, st, most), ops[|ops| - 1]);
    } else if Closed(end.log) {
      var k :| 0 <= k < |ops| && LosesEnd(h, StepAll(h, st, ops[..k]), ops[k]);
      RunLoses(h, st, ops, k);
      NetIsOpen(end.log);
    }
  }

  /** Outside replay no end is ever lost. */
  lemma OnlyReplaysLose(h: Host, st: State, op: Op)
    requires !st.mode.Replay?
    ensures !LosesEnd(h, st, op)
  {
    if op.CellDone? { CloseAllLosesNothing(h, st, op.cellId); }
  }

  lemma {:induction false} CloseAllLosesNothing(h: Host, st: State, cell: string)
    requires !st.mode.Replay?
    ensures CloseAll(h, st, cell).1.None?
    decreases |st.stack|
  {
    if st.stack != [] {
      CloseAllLosesNothing(h, EndSpan(h, st, false, Null, UnclosedSpan(cell)).0, cell);
    }
  }

  lemma {:induction false} StepAllKeepsMode(h: Host, st: State, ops: seq<Op>)
    requires !st.mode.Replay?
    ensures NoLostEnd(h, st, ops) && StepAll(h, st, ops).mode == st.mode
  {
    hide Step, LosesEnd;
    if ops != [] {
      var most := ops[..|ops| - 1];
      StepAllKeepsMode(h, st, most);
      var before := StepAll(h, st, most);
      OnlyReplaysLose(h, before, ops[|ops| - 1]);
      StepKeepsMode(h, before, ops[|ops| - 1]);
      forall k | 0 <= k < |ops| ensures !LosesEnd(h, StepAll(h, st, ops[..k]), ops[k]) {
        assert k < |most| ==> most[..k] == ops[..k];
      }
    }
  }

  lemma StepKeepsMode(h: Host, st: State, op: Op)
    requires !st.mode.Replay?
    ensures Step(h, st, op).0.mode == st.mode
  {
    hide Call, EndMeta, ServeSpan, CloseAll;
    match op
    case Begin(name, kind, input) => ServeSpanKeeps(st.(spanN := st.spanN + 1), name, Key(name, input));
    case End(ok, output, error) =>
    case Do(name, payload) => CallAddsEffects(h, st, name, payload);
    case CellDone(cell, ok, error, interrupted) => CloseAllKeepsMode(h, st, cell);
  }

  lemma {:induction false} CloseAllKeepsMode(h: Host, st: State, cell: string)
    requires !st.mode.Replay?
    ensures CloseAll(h, st, cell).0.mode == st.mode
    decreases |st.stack|
  {
    if st.stack != [] {
      hide EndMeta;
      CloseAllKeepsMode(h, EndSpan(h, st, false, Null, UnclosedSpan(cell)).0, cell);
    }
  }
}
