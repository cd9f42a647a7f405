/** What the records of a span and of a cell say, over whole runs. */
module SpanRecords {
  import opened Options
  import opened Json
  import opened Trace
  import opened Mocks
  import opened Pipeline
  import opened Accounting
  import opened MockScopes
  import opened Shadows
  import opened Replaying
  import opened ReplayCounts
  import opened Positions = Facades
  import opened ServedSpans

  // --- ends ---

  /** The frame at height i was begun by `op`, with that reply. */
  ghost predicate BegunSo(st: State, i: nat, op: Op, reply: Reply)
    requires op.Begin?
  {
    && i < |st.stack|
    && var f := st.stack[i];
       && f.name == op.name && f.kind == op.kind && f.ownsMock == MockSpecOf(op.input).Some?
       && reply == Began(f.id, match f.served case Some((s, _)) => Some(s) case None => None)
  }

  lemma BeginNames(h: Host, st: State, name: string, kind: Option<string>, input: Json)
    requires Coherent(st) && !st.mode.Replay? && |Step(h, st, Begin(name, kind, input)).0.stack| > |st.stack|
    ensures var (st', reply) := Step(h, st, Begin(name, kind, input));
            BegunSo(st', |st.stack|, Begin(name, kind, input), reply) && st'.stack[|st.stack|].id == st.spanN + 1
  {
    hide BeginSpan, BuildMock, SlotFor, Consulted, Coherent;
    if MockSpecOf(input).None? {
      FacadeBeginIs(h, st, name, kind, input);
    } else if BuildMock(h, MockSpecOf(input).value, st.log).Ok? {
      SpecBeginIs(h, st, name, kind, input, BuildMock(h, MockSpecOf(input).value, st.log).value);
    } else {
      BadBeginKeeps(h, st, name, kind, input);
    }
  }

  lemma {:induction false} BegunSince(h: Host, st: State, g: Guest, b: nat, k: nat, i: nat)
    requires Fresh(st) && !st.mode.Replay? && OpenSince(h, st, g, b, k, i) && OpAt(h, st, g, b).Begin?
    ensures BegunSo(Go(h, st, g, k).st, i, OpAt(h, st, g, b), Step(h, Go(h, st, g, b).st, OpAt(h, st, g, b)).1)
    ensures Go(h, st, g, k).st.stack[i].id == Go(h, st, g, b).st.spanN + 1
    decreases k
  {
    hide Step, Coherent, Go, OpenSince, Fresh;
    var op := OpAt(h, st, g, b);
    OpenUntil(h, st, g, b, k, i);
    GoOn(h, st, g, k);
    var here := Go(h, st, g, k - 1).st;
    if k == b + 1 {
      BeginNames(h, here, op.name, op.kind, op.input);
    } else {
      BegunSince(h, st, g, b, k - 1, i);
      StepKeepsFrames(h, here, OpAt(h, st, g, k - 1));
    }
  }

  /** The record of a span's end, and the reply to it: the span's own number, name and kind
      as its begin gave them, the verdict, output and error as the end does, and the time
      the clock shows; where it was served from if its begin was served; and what its own
      filter came to if it brought a mock. */
  lemma EndsTell(h: Host, st: State, g: Guest, b: nat, e: nat) returns (meta: SpanMeta)
    requires Spans(h, st, g, b, e)
    ensures var begin, end, here := OpAt(h, st, g, b), OpAt(h, st, g, e), Go(h, st, g, e).st;
            && Go(h, st, g, e + 1).st.log ==
               here.log + [SpanEnd(Go(h, st, g, b).st.spanN + 1, begin.name, here.cell,
                                   end.ok, end.output, end.error, meta)]
            && Step(h, here, end).1 == Ended(meta)
            && meta.kind == begin.kind && meta.durMs == h.elapsed(|here.log|)
            && var reply := Step(h, Go(h, st, g, b).st, begin).1;
               reply.Began? && (meta.servedFrom.Some? <==> reply.served.Some?)
    ensures var begin, here := OpAt(h, st, g, b), Go(h, st, g, e).st;
            if MockSpecOf(begin.input).None? then meta.mockFilter == None
            else here.spanMocks != [] && meta.mockFilter == Hits(here.spanMocks[|here.spanMocks| - 1])
  {
    hide Go, EndSpan, BeginSpan, OpenSince, Agrees, AfterClose, Hits, MockSpecOf;
    var end, here := OpAt(h, st, g, e), Go(h, st, g, e).st;
    BegunSince(h, st, g, b, e, |Go(h, st, g, b).st.stack|);
    EndWrites(h, st, g, b, e);
    GoOn(h, st, g, e + 1);
    meta := EndMeta(h, here, here.stack[|here.stack| - 1]);
    EndIs(h, here, end.ok, end.output, end.error);
  }

  // --- cells ---

  /** The end of a span closed by force. */
  ghost predicate ForceClosed(r: Trace.Record, f: Frame) {
    && r.SpanEnd? && r.id == f.id && r.name == f.name && r.smeta.kind == f.kind
    && !r.ok && r.output == Null && Get(r.serror, "type") == Some(Str("unclosed_span"))
  }

  /** From the innermost span outwards. */
  ghost predicate AllForceClosed(ends: seq<Trace.Record>, stack: seq<Frame>) {
    |ends| == |stack| && forall k | 0 <= k < |ends| :: ForceClosed(ends[k], stack[|stack| - 1 - k])
  }

  lemma UnclosedType(cell: string)
    ensures Get(UnclosedSpan(cell), "type") == Some(Str("unclosed_span"))
  {
    assert |"type"| == 4 && |"message"| == 7;
    var message := Str("cell " + cell + " ended with span open");
    var fields := [Field("message", message), Field("type", Str("unclosed_span"))];
    assert fields[1..] == [fields[1]];
    assert Lookup([fields[1]], "type") == Some(Str("unclosed_span"));
  }

  /** The innermost span of a run in Record or Mock mode, closed by force. */
  lemma OneForceClosed(h: Host, st: State, cell: string) returns (r: Trace.Record)
    requires !st.mode.Replay? && st.stack != []
    ensures var (st', reply) := EndSpan(h, st, false, Null, UnclosedSpan(cell));
            && !reply.Failed? && st'.log == st.log + [r] && ForceClosed(r, st.stack[|st.stack| - 1])
            && !st'.mode.Replay? && |st'.stack| == |st.stack| - 1
            && forall i | 0 <= i < |st'.stack| ::
                 && st'.stack[i].id == st.stack[i].id && st'.stack[i].name == st.stack[i].name
                 && st'.stack[i].kind == st.stack[i].kind
  {
    hide EndSpan, EndMeta;
    EndIs(h, st, false, Null, UnclosedSpan(cell));
    UnclosedType(cell);
    r := EndOf(h, st, st.stack[|st.stack| - 1], false, Null, UnclosedSpan(cell));
    KindKept(h, st, st.stack[|st.stack| - 1]);
  }

  lemma KindKept(h: Host, st: State, top: Frame)
    ensures EndMeta(h, st, top).kind == top.kind
  {
  }

  lemma {:induction false} AllClosedByForce(h: Host, st: State, cell: string) returns (ends: seq<Trace.Record>)
    requires !st.mode.Replay?
    ensures var (st', failure) := CloseAll(h, st, cell);
            && failure.None? && st'.stack == [] && !st'.mode.Replay? && st'.log == st.log + ends
            && AllForceClosed(ends, st.stack)
    decreases |st.stack|
  {
    hide EndSpan, ForceClosed;
    if st.stack == [] {
      ends := [];
      assert st.log + [] == st.log;
    } else {
      var next := EndSpan(h, st, false, Null, UnclosedSpan(cell)).0;
      var r := OneForceClosed(h, st, cell);
      var rest := AllClosedByForce(h, next, cell);
      ends := [r] + rest;
      assert st.log + ends == (st.log + [r]) + rest;
      forall k | 0 <= k < |ends| ensures ForceClosed(ends[k], st.stack[|st.stack| - 1 - k]) {
        if k > 0 { SameForce(ends[k], next.stack[|next.stack| - k], st.stack[|st.stack| - 1 - k]); }
      }
    }
  }

  lemma SameForce(r: Trace.Record, f: Frame, f': Frame)
    requires ForceClosed(r, f) && f.id == f'.id && f.name == f'.name && f.kind == f'.kind
    ensures ForceClosed(r, f')
  {
  }

  /** A cell that ends with spans open closes each as a failure, the innermost first, and
      then writes its own record: its id, verdict and error, and whether it was cut short. */
  lemma CellsTell(h: Host, st: State, cell: string, ok: bool, error: Json, interrupted: bool)
      returns (ends: seq<Trace.Record>)
    requires !st.mode.Replay?
    ensures var (st', reply) := Step(h, st, CellDone(cell, ok, error, interrupted));
            && AllForceClosed(ends, st.stack) && st'.log == st.log + ends + [Cell(cell, ok, error, interrupted)]
            && st'.stack == [] && reply == CellClosed
  {
    hide CloseAll;
    ends := AllClosedByForce(h, st, cell);
  }

  // --- begins ---

  /** A begin that opens a span numbers it one on, and records its name, input, cell and the
      span around it. */
  lemma BeginsTell(h: Host, st: State, name: string, kind: Option<string>, input: Json)
    requires Coherent(st) && !st.mode.Replay? && |Step(h, st, Begin(name, kind, input)).0.stack| > |st.stack|
    ensures var parent := if st.stack == [] then None else Some(st.stack[|st.stack| - 1].id);
            Step(h, st, Begin(name, kind, input)).0.log ==
            st.log + [SpanBegin(st.spanN + 1, name, st.cell, input, Key(name, input), parent)]
  {
    hide BeginSpan, Coherent;
    BeginOpens(h, st, name, kind, input);
  }

  /** What is read of a begin's input as a mock spec: its member "mock", unless null. */
  lemma SpecIsTheMockMember(input: Json)
    ensures MockSpecOf(input) == if Get(input, "mock") == Some(Null) then None else Get(input, "mock")
  {
  }
}
