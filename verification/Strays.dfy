/** A guest that leaves the recorded path: which requests the trace still answers, and that
    the first one it does not answer is caught. */
module Strays {
  import opened Options
  import opened Json
  import opened Trace
  import opened Pipeline
  import opened FanOut
  import opened Shadows
  import opened CallRecords
  import opened Replaying
  import opened ReplayRuns
  import opened Divergence

  /** What an operation needs the trace to have next. */
  datatype Checkpoint =
    | OfEffect(key: Key)
    | OfBegin(key: Key)
    | OfEnd(name: string, ok: bool)
    | OfCell(cell: string, ok: bool)

  /** Read off the operation and the stack; a cell that ends with spans open first closes
      the innermost one, as a failure. */
  function CheckpointOf(h: Host, st: State, op: Op): Option<Checkpoint> {
    match op
    case Begin(name, _, input) => Some(OfBegin(Key(name, input)))
    case End(ok, _, _) => if st.stack == [] then None else Some(OfEnd(st.stack[|st.stack| - 1].name, ok))
    case Do(name, given) => if Materialises(h, name, given) then Some(OfEffect(Key(name, Payload(h, name,
        given)))) else None
    case CellDone(cell, ok, _, _) =>
      Some(if st.stack != [] then OfEnd(st.stack[|st.stack| - 1].name, false) else OfCell(cell, ok))
  }

  /** The operation comes as far as the trace. */
  predicate Asks(h: Host, st: State, op: Op) {
    && CheckpointOf(h, st, op).Some?
    && (op.Do? ==> !IsDenied(h, st, op.name, Payload(h, op.name, op.payload)))
  }

  /** The trace has it next, but for host-emitted records an effect skips. */
  predicate Meets(c: Cursor, asked: Checkpoint) {
    match asked
    case OfEffect(key) => HeadFor(c, key.name, key).AtEffect(key.name, key)
    case OfBegin(key) => c.AtBegin(key.name, key)
    case OfEnd(name, ok) => c.AtEnd(name, ok)
    case OfCell(cell, ok) => c.AtCell(cell, ok)
  }

  lemma UnmetMeans(h: Host, st: State, op: Op)
    ensures Unmet(h, st, op) <==> Asks(h, st, op) && !Meets(st.cursor, CheckpointOf(h, st, op).value)
  {
    hide HeadFor, IsDenied;
  }

  // --- the record a step leaves first ---

  predicate Marks(r: Trace.Record, cp: Checkpoint) {
    match cp
    case OfEffect(key) => r.Effect? && r.name == key.name && r.key == key
    case OfBegin(key) => r.SpanBegin? && r.name == key.name && r.key == key
    case OfEnd(name, ok) => r.SpanEnd? && r.name == name && r.ok == ok
    case OfCell(cell, ok) => r.Cell? && r.cellId == cell && r.ok == ok
  }

  /** The host's own record, which the guest can ask for too. */
  predicate Drained(r: Trace.Record, asked: Checkpoint) {
    r.Effect? && r.emeta.hosted && asked == OfEffect(r.key)
  }

  lemma MeetsAlone(c: Cursor, cp: Checkpoint, asked: Checkpoint)
    requires c.AtRecord() && Marks(c.log[c.pos], cp) && !(c.log[c.pos].Effect? && c.log[c.pos].emeta.hosted)
    ensures Meets(c, asked) <==> asked == cp
    ensures !Drained(c.log[c.pos], asked)
  {
    if asked.OfEffect? { assert HeadFor(c, asked.key.name, asked.key) == c; }
  }

  lemma MeetsPair(c: Cursor, cp: Checkpoint, asked: Checkpoint)
    requires c.pos + 1 < |c.log| && cp.OfEffect?
    requires var pre, own := c.log[c.pos], c.log[c.pos + 1];
             && pre.Effect? && pre.emeta.hosted && pre.key == Key(pre.name, pre.input) && pre.key != cp.key
             && Marks(own, cp) && !own.emeta.hosted
    ensures Meets(c, asked) <==> asked == cp || Drained(c.log[c.pos], asked)
  {
    if asked.OfEffect? {
      if asked.key == c.log[c.pos].key {
        assert HeadFor(c, asked.key.name, asked.key) == c;
      } else {
        assert c.HostedMismatch(asked.key.name, asked.key);
        assert HeadFor(c, asked.key.name, asked.key) == HeadFor(c.Advance(), asked.key.name, asked.key) == c.Advance();
      }
    }
  }

  /** What a recorded step leaves first answers its own checkpoint, and nothing else but
      the host's refresh. */
  ghost predicate Answers(h: Host, rec: State, op: Op, log: seq<Trace.Record>, asked: Checkpoint) {
    && |log| > |rec.log| && CheckpointOf(h, rec, op).Some?
    && (Meets(Cursor(log, |rec.log|), asked) <==>
        asked == CheckpointOf(h, rec, op).value || Drained(log[|rec.log|], asked))
  }

  lemma BeginAnswers(h: Host, rec: State, op: Op, log: seq<Trace.Record>, asked: Checkpoint)
    requires !rec.mode.Replay? && op.Begin?
    requires var end := Step(h, rec, op).0.log; |end| > |rec.log| && end <= log
    ensures Answers(h, rec, op, log, asked)
  {
    hide BeginSpan, BuildMock, SlotFor, Consulted, Meets, HeadFor, Call, EndSpan, FinishCell;
    if MockSpecOf(op.input).None? {
      FacadeBeginIs(h, rec, op.name, op.kind, op.input);
    } else {
      SpecBeginLeaves(h, rec, op.name, op.kind, op.input);
      SpecBeginIs(h, rec, op.name, op.kind, op.input, BuildMock(h, MockSpecOf(op.input).value, rec.log).value);
    }
    assert log[|rec.log|] == BeginOf(rec.(spanN := rec.spanN + 1), op.name, op.input);
    MeetsAlone(Cursor(log, |rec.log|), CheckpointOf(h, rec, op).value, asked);
  }

  lemma SpecBeginLeaves(h: Host, st: State, name: string, kind: Option<string>, input: Json)
    requires !st.mode.Replay? && MockSpecOf(input).Some? && |BeginSpan(h, st, name, kind, input).0.log| > |st.log|
    ensures BuildMock(h, MockSpecOf(input).value, st.log).Ok?
  {
    hide BuildMock;
  }

  lemma EndAnswers(h: Host, rec: State, op: Op, log: seq<Trace.Record>, asked: Checkpoint)
    requires !rec.mode.Replay? && op.End?
    requires var end := Step(h, rec, op).0.log; |end| > |rec.log| && end <= log
    ensures Answers(h, rec, op, log, asked)
  {
    hide CloseSpan, EndMeta, Meets, HeadFor, Call, BeginSpan, FinishCell;
    assert rec.stack != [];
    EndIs(h, rec, op.ok, op.output, op.error);
    assert log[|rec.log|] == EndOf(h, rec, rec.stack[|rec.stack| - 1], op.ok, op.output, op.error);
    MeetsAlone(Cursor(log, |rec.log|), CheckpointOf(h, rec, op).value, asked);
  }

  lemma CellLeaves(h: Host, st: State, op: Op)
    requires !st.mode.Replay? && op.CellDone?
    ensures var end := Step(h, st, op).0.log;
            && |end| > |st.log| && st.log <= end
            && Marks(end[|st.log|], CheckpointOf(h, st, op).value) && !end[|st.log|].Effect?
  {
    hide EndMeta, AfterClose;
    if st.stack != [] {
      hide CloseAll, EndSpan;
      var st1 := EndSpan(h, st, false, Null, UnclosedSpan(op.cellId)).0;
      EndIs(h, st, false, Null, UnclosedSpan(op.cellId));
      ClosesWith(h, st, false, Null, UnclosedSpan(op.cellId));
      CloseAllGrows(h, st1, op.cellId);
      assert CloseAll(h, st, op.cellId) == CloseAll(h, st1, op.cellId) by { ClosesOn(h, st, op.cellId); }
    }
  }

  lemma ClosesWith(h: Host, st: State, ok: bool, output: Json, error: Json)
    requires st.stack != []
    ensures AfterClose(h, st, ok, output, error).log
            == st.log + [EndOf(h, st, st.stack[|st.stack| - 1], ok, output, error)]
    ensures AfterClose(h, st, ok, output, error).mode == st.mode
  {
    hide EndMeta;
  }

  lemma ClosesOn(h: Host, st: State, cell: string)
    requires !st.mode.Replay? && st.stack != []
    ensures CloseAll(h, st, cell) == CloseAll(h, EndSpan(h, st, false, Null, UnclosedSpan(cell)).0, cell)
  {
    hide CloseSpan, AfterClose;
    EndIs(h, st, false, Null, UnclosedSpan(cell));
  }

  lemma CellAnswers(h: Host, rec: State, op: Op, log: seq<Trace.Record>, asked: Checkpoint)
    requires !rec.mode.Replay? && op.CellDone?
    requires var end := Step(h, rec, op).0.log; |end| > |rec.log| && end <= log
    ensures Answers(h, rec, op, log, asked)
  {
    hide FinishCell, Meets, HeadFor, Call, BeginSpan, EndSpan;
    CellLeaves(h, rec, op);
    var end := Step(h, rec, op).0.log;
    assert log[|rec.log|] == end[|rec.log|];
    MeetsAlone(Cursor(log, |rec.log|), CheckpointOf(h, rec, op).value, asked);
  }

  lemma CallAnswers(h: Host, h': Host, rec: State, op: Op, log: seq<Trace.Record>, asked: Checkpoint)
    requires !rec.mode.Replay? && rec.hosted == 0 && SameRuntime(h, h') && op.Do?
             && FaithfulCall(h, h', rec, op.name, op.payload)
    requires var end := Step(h, rec, op).0.log; |end| > |rec.log| && end <= log
    ensures Answers(h, rec, op, log, asked)
  {
    hide ConsultMock, CallAdmitted, WriteRefusal, Servable, Besides, Meets, HeadFor, BeginSpan, EndSpan, FinishCell,
         SameRuntime,
         SlotFits, IsDenied, Replayed;
    assert Materialises(h, op.name, op.payload);
    var payload := Payload(h, op.name, op.payload);
    var p := CallRecorded(h, h', rec, op.name, payload);
    var end := Step(h, rec, op).0;
    BesidesKeepsLog(rec, Classify(h, op.name, payload), p, end);
    PairAnswersFor(h, rec, op.name, payload, p, end, log, asked);
  }

  lemma PairAnswersFor(h: Host, rec: State, name: string, payload: Json, p: RecordPair, end: State,
                       log: seq<Trace.Record>,
                       asked: Checkpoint)
    requires RecordsEffect(rec, name, payload, Classify(h, name, payload), false, p.own)
    requires p.pre.Some? ==>
      IsHttp(name) && p.pre.value.Effect? && RecordsEffect(rec, "oauth.refresh", p.pre.value.input, Mutate, true,
          p.pre.value)
    requires end.log == rec.log + (if p.pre.Some? then [p.pre.value] else []) + [p.own] && end.log <= log
    ensures var c := Cursor(log, |rec.log|);
            |log| > |rec.log|
            && (Meets(c, asked) <==> asked == OfEffect(Key(name, payload)) || Drained(log[|rec.log|], asked))
  {
    hide Meets, HeadFor;
    var c := Cursor(log, |rec.log|);
    if p.pre.Some? {
      assert end.log[|rec.log|] == p.pre.value && end.log[|rec.log| + 1] == p.own;
      assert log[|rec.log|] == p.pre.value && log[|rec.log| + 1] == p.own;
      assert "oauth.refresh"[0] != "http."[0];
      MeetsPair(c, OfEffect(Key(name, payload)), asked);
    } else {
      assert end.log[|rec.log|] == p.own;
      assert log[|rec.log|] == p.own;
      MeetsAlone(c, OfEffect(Key(name, payload)), asked);
    }
  }

  lemma StepAnswers(h: Host, h': Host, rec: State, op: Op, log: seq<Trace.Record>, asked: Checkpoint)
    requires !rec.mode.Replay? && rec.hosted == 0 && SameRuntime(h, h')
    requires op.Do? ==> FaithfulCall(h, h', rec, op.name, op.payload)
    requires var end := Step(h, rec, op).0.log; |end| > |rec.log| && end <= log
    ensures Answers(h, rec, op, log, asked)
  {
    hide Answers, Step, FaithfulCall, SameRuntime;
    match op
    case Begin(_, _, _) => BeginAnswers(h, rec, op, log, asked);
    case End(_, _, _) => EndAnswers(h, rec, op, log, asked);
    case Do(_, _) => CallAnswers(h, h', rec, op, log, asked);
    case CellDone(_, _, _, _) => CellAnswers(h, rec, op, log, asked);
  }

  // --- in a run ---

  /** Step m is the first from k on that left a record; m is n if there is none. */
  ghost predicate NextToRecord(h: Host, st: State, g: Guest, k: nat, m: nat, n: nat) {
    && k <= m <= n && Go(h, st, g, m).st.log == Go(h, st, g, k).st.log
    && (m < n ==> |Go(h, st, g, m + 1).st.log| > |Go(h, st, g, m).st.log|)
  }

  /** The guest in state `st` asks for what step m of the recording asked for, or for the
      refresh the host emitted in it. */
  ghost predicate AsksAsRecorded(h: Host, h': Host, rec: State, g: Guest, m: nat, n: nat, log: seq<Trace.Record>,
                                 st: State, op: Op) {
    && m < n && CheckpointOf(h', st, op).Some? && |log| > |Go(h, rec, g, m).st.log|
    && (|| CheckpointOf(h', st, op) == CheckpointOf(h, Go(h, rec, g, m).st, OpAt(h, rec, g, m))
        || Drained(log[|Go(h, rec, g, m).st.log|], CheckpointOf(h', st, op).value))
  }

  lemma NothingLeft(c: Cursor, asked: Checkpoint)
    requires c.Exhausted()
    ensures !Meets(c, asked)
  {
  }

  /** Which requests the trace has no answer for.  A guest that has made the recorded choices
      up to step k then comes as far as the trace and is refused there exactly when it asks
      for something else than the next recorded operation that left a record -- an effect or a
      begin of another name or input, an end of another span or outcome, another cell, or one
      of these in place of another -- unless it is the very refresh the host emitted in that operation. */
  lemma StrayIsUnmet(exact: bool, h: Host, h': Host, rec: State, rep: State, g: Guest, g': Guest, n: nat, k: nat,
                     m: nat,
                     log: seq<Trace.Record>)
    requires log == Go(h, rec, g, n).st.log && NextToRecord(h, rec, g, k, m, n)
    requires Starts(rec, rep, log) && SameRuntime(h, h') && Blind(exact, g) && Granted(h', rep.grants, log)
    requires FaithfulRun(h, h', log, rec, g, k) && SpecsReload(h, h', log, rec, g, k)
    requires exact ==> MocksAsideRun(h, log, rec, g, k)
    requires m < n && OpAt(h, rec, g, m).Do? ==>
               FaithfulCall(h, h', Go(h, rec, g, m).st, OpAt(h, rec, g, m).name, OpAt(h, rec, g, m).payload)
    requires AgreesUpTo(h', rep, g, g', k)
    ensures var st, op := Go(h', rep, g', k).st, OpAt(h', rep, g', k);
            Unmet(h', st, op) <==> Asks(h', st, op) && !AsksAsRecorded(h, h', rec, g, m, n, log, st, op)
  {
    hide Step, Sync, Unmet, Granted, FaithfulRun, VisibleAll, SameRuntime, Blind, SpecsReload, MocksAsideRun,
         FaithfulCall, Meets,
         CheckpointOf, Asks, Starts, Go, Track, Drained, IsDenied, AgreesUpTo;
    SimulatedUpTo(exact, h, h', rec, rep, g, g', n, k, log);
    var st, op, there := Go(h', rep, g', k).st, OpAt(h', rep, g', k), Go(h, rec, g, m).st;
    SyncPlaces(exact, Track(h, log, rec, g, k), Go(h, rec, g, k).st, st, log);
    UnmetMeans(h', st, op);
    assert st.cursor == Cursor(log, |there.log|);
    if Asks(h', st, op) {
      var asked := CheckpointOf(h', st, op);
      assert asked.Some? by { AskedSomething(h', st, op); }
      if m < n {
        FreshRecorder(rec, rep, log);
        RunsAreKeyed(h, rec, g, m);
        GoOn(h, rec, g, m);
        GoGrows(h, rec, g, m + 1, n);
        StepAnswers(h, h', there, OpAt(h, rec, g, m), log, asked.value);
      } else {
        NothingLeft(st.cursor, asked.value);
      }
    }
  }

  lemma AskedSomething(h: Host, st: State, op: Op)
    requires Asks(h, st, op)
    ensures CheckpointOf(h, st, op).Some?
  {
  }

  lemma FreshRecorder(rec: State, rep: State, log: seq<Trace.Record>)
    requires Starts(rec, rep, log)
    ensures Fresh(rec) && !rec.mode.Replay?
  {
  }

  lemma GoOn(h: Host, st: State, g: Guest, m: nat)
    ensures Go(h, st, g, m + 1).st == Step(h, Go(h, st, g, m).st, OpAt(h, st, g, m)).0
    ensures Go(h, st, g, m + 1).replies[..m] == Go(h, st, g, m).replies
    ensures Go(h, st, g, m + 1).replies[m] == Step(h, Go(h, st, g, m).st, OpAt(h, st, g, m)).1
  {
    hide Step;
  }

  /** A guest that has made the recorded choices up to step k and then asks for something
      else has been served every recorded reply so far, gets DivergenceError at k, and
      nothing it did, step k included, ran live except blob reads. */
  lemma DivergenceIsCaught(exact: bool, h: Host, h': Host, rec: State, rep: State, g: Guest, g': Guest, n: nat,
                           k: nat, m: nat,
                           log: seq<Trace.Record>)
    requires log == Go(h, rec, g, n).st.log && NextToRecord(h, rec, g, k, m, n)
    requires Starts(rec, rep, log) && SameRuntime(h, h') && Blind(exact, g) && Granted(h', rep.grants, log)
    requires FaithfulRun(h, h', log, rec, g, k) && SpecsReload(h, h', log, rec, g, k)
    requires exact ==> MocksAsideRun(h, log, rec, g, k)
    requires m < n && OpAt(h, rec, g, m).Do? ==>
               FaithfulCall(h, h', Go(h, rec, g, m).st, OpAt(h, rec, g, m).name, OpAt(h, rec, g, m).payload)
    requires AgreesUpTo(h', rep, g, g', k)
    requires var st, op := Go(h', rep, g', k).st, OpAt(h', rep, g', k);
             Asks(h', st, op) && !AsksAsRecorded(h, h', rec, g, m, n, log, st, op)
    ensures var b := Go(h', rep, g', k + 1);
            && VisibleAll(exact, b.replies[..k]) == VisibleAll(exact, Go(h, rec, g, k).replies)
            && b.replies[k] == Failed(DIVERGENCE)
            && OnlyBlobReads([], b.st.ran)
  {
    hide Step, Sync, Unmet, Granted, FaithfulRun, VisibleAll, SameRuntime, Blind, SpecsReload, MocksAsideRun,
         FaithfulCall, Asks,
         AsksAsRecorded, Starts, Go, Track, AgreesUpTo;
    StrayIsUnmet(exact, h, h', rec, rep, g, g', n, k, m, log);
    SimulatedUpTo(exact, h, h', rec, rep, g, g', n, k, log);
    var b := Go(h', rep, g', k);
    SyncModes(exact, Track(h, log, rec, g, k), Go(h, rec, g, k).st, b.st, log, h, h');
    UnmetDiverges(h', b.st, OpAt(h', rep, g', k));
    GoOn(h', rep, g', k);
  }
}
