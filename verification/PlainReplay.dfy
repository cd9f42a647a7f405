/** Guests without in-span mocks. */
module PlainReplay {
  import opened Json
  import opened Trace
  import opened Mocks
  import opened Pipeline
  import opened Stretch
  import opened FanOut
  import opened Shadows
  import opened CallRecords
  import opened Replaying
  import opened ReplayRuns
  import opened ReplayCounts
  import Reentry

  predicate MockFree(op: Op) { op.Begin? ==> MockSpecOf(op.input).None? }

  ghost predicate MockFreeRun(h: Host, st: State, g: Guest, n: nat) {
    forall k: nat | k < n :: MockFree(OpAt(h, st, g, k))
  }

  /** The batch, if it is one, is denied or has no item that comes as far as a record. */
  predicate NoFanOut(h: Host, st: State, op: Op) {
    op.Do? && op.name == "batch" ==> IsDenied(h, st, "batch", op.payload) || NoItemRecords(h, op.payload)
  }

  ghost predicate NoFanOutRun(h: Host, st: State, g: Guest, n: nat) {
    forall k: nat | k < n :: NoFanOut(h, Go(h, st, g, k).st, OpAt(h, st, g, k))
  }

  /** No span-scoped index anywhere: no owner open, and no span served whole. */
  predicate Bare(st: State, s: Shadow) {
    && !st.mode.Replay? && st.hosted == 0 && st.spanMocks == [] && s.mocks == []
    && forall i | 0 <= i < |st.stack| :: !st.stack[i].ownsMock && st.stack[i].served.None?
  }

  lemma BareConsult(st: State, s: Shadow, name: string, key: Key)
    requires Bare(st, s) && st.mode.Record?
    ensures ConsultMock(st, name, key) == (st, Plain)
  {
  }

  lemma BareCall(h: Host, st: State, s: Shadow, op: Op, log: seq<Trace.Record>)
    requires Bare(st, s) && op.Do?
    ensures Bare(Step(h, st, op).0, Shade(h, log, st, s, op)) && Step(h, st, op).0.mode == st.mode
    ensures st.mode.Record? ==> MocksAside(h, log, st, op)
  {
    hide Call, Answered, FilterHit;
    var st' := Call(h, st, op.name, op.payload).0;
    CallIsStretch(h, st, op.name, op.payload);
    forall i | 0 <= i < |st'.stack| ensures !st'.stack[i].ownsMock && st'.stack[i].served.None? {
      assert st'.stack[i] == st.stack[i].(tally := st'.stack[i].tally);
    }
    if st.mode.Record? { BareAnswer(h, st, s, op); }
  }

  /** Without an index no record is marked as answered from one. */
  lemma BareAnswer(h: Host, st: State, s: Shadow, op: Op)
    requires Bare(st, s) && op.Do? && st.mode.Record?
    ensures !Answered(h, st, op)
  {
    hide CallAdmitted;
    if Materialises(h, op.name, op.payload) {
      var payload := Payload(h, op.name, op.payload);
      if !IsDenied(h, st, op.name, payload) {
        var cls := Classify(h, op.name, payload);
        BareConsult(st, s, op.name, Key(op.name, payload));
        Reentry.PlainlyLive(h, st, op.name, payload, cls);
        LiveIsUnmocked(h, st, op.name, payload, cls);
      }
    }
  }

  lemma LiveIsUnmocked(h: Host, st: State, name: string, payload: Json, cls: Class)
    ensures var log := CallLive(h, st, name, payload, cls, false).0.log;
            log != [] && log[|log| - 1].Effect? && !log[|log| - 1].emeta.mocked
  {
    hide Execute;
  }

  lemma BareEnd(h: Host, st: State, s: Shadow, ok: bool, output: Json, error: Json)
    requires Bare(st, s)
    ensures var st' := EndSpan(h, st, ok, output, error).0;
            Bare(st', if st.stack == [] then s else Popped(st.stack, s)) && st'.mode == st.mode
                && (st.stack != [] ==> |st'.stack| == |st.stack| - 1)
  {
    hide EndMeta;
  }

  lemma {:induction false} BareCloseAll(h: Host, st: State, s: Shadow, cell: string)
    requires Bare(st, s)
    ensures Bare(CloseAll(h, st, cell).0, UNSHADED) && CloseAll(h, st, cell).0.mode == st.mode
    decreases |st.stack|
  {
    hide EndSpan;
    if st.stack != [] {
      BareEnd(h, st, s, false, Null, UnclosedSpan(cell));
      var st1 := EndSpan(h, st, false, Null, UnclosedSpan(cell));
      if !st1.1.Failed? { BareCloseAll(h, st1.0, Popped(st.stack, s), cell); }
    }
  }

  lemma StepStaysBare(h: Host, st: State, s: Shadow, op: Op, log: seq<Trace.Record>)
    requires Bare(st, s) && MockFree(op)
    ensures Bare(Step(h, st, op).0, Shade(h, log, st, s, op)) && Step(h, st, op).0.mode == st.mode
    ensures st.mode.Record? ==> MocksAside(h, log, st, op)
  {
    hide Call, EndSpan, CloseAll, MocksAside;
    if !op.Do? { NotACall(h, st, op, log); }
    match op
    case Begin(name, kind, input) => FacadeBeginIs(h, st, name, kind, input);
    case End(ok, output, error) => BareEnd(h, st, s, ok, output, error);
    case Do(name, payload) => BareCall(h, st, s, op, log);
    case CellDone(cell, ok, error, interrupted) => BareCloseAll(h, st, s, cell);
  }

  lemma NotACall(h: Host, st: State, op: Op, log: seq<Trace.Record>)
    requires !op.Do? && MockFree(op)
    ensures MocksAside(h, log, st, op)
  {
  }

  lemma {:induction false} RunStaysBare(h: Host, st: State, g: Guest, n: nat, log: seq<Trace.Record>)
    requires Fresh(st) && !st.mode.Replay? && MockFreeRun(h, st, g, n)
    ensures Bare(Go(h, st, g, n).st, Track(h, log, st, g, n)) && Go(h, st, g, n).st.mode == st.mode
    ensures st.mode.Record? ==> MocksAsideRun(h, log, st, g, n)
  {
    hide Step, Shade, Bare, MocksAside;
    if n == 0 {
      assert Bare(st, UNSHADED) by { FreshIsBare(st); }
    } else {
      RunStaysBare(h, st, g, n - 1, log);
      assert MockFree(OpAt(h, st, g, n - 1));
      StepStaysBare(h, Go(h, st, g, n - 1).st, Track(h, log, st, g, n - 1), OpAt(h, st, g, n - 1), log);
    }
  }

  lemma FreshIsBare(st: State)
    requires Fresh(st) && !st.mode.Replay?
    ensures Bare(st, UNSHADED)
  {
  }

  /** There, faithful means no fan-out. */
  lemma BareFaithful(h: Host, h': Host, st: State, s: Shadow, op: Op)
    requires Bare(st, s) && st.mode.Record? && MockFree(op)
    ensures Faithful(h, h', st, s, op) <==> NoFanOut(h, st, op)
    ensures op.Do? && Materialises(h, op.name, op.payload) ==> !RefreshMocked(h, st, op.name, Payload(h, op.name,
        op.payload))
  {
    hide ConsultMock, NoItemRecords, IsDenied, Decide, Take;
    match op
    case Begin(name, _, input) =>
    case Do(name, given) =>
      BatchIsItsOwn();
      if Materialises(h, name, given) {
        var payload := Payload(h, name, given);
        BareConsult(st, s, name, Key(name, payload));
        BareConsult(st, s, "batch", Key("batch", payload));
        BareRefresh(h, st, s, name, payload);
      }
    case _ =>
  }

  lemma BareRefresh(h: Host, st: State, s: Shadow, name: string, payload: Json)
    requires Bare(st, s) && st.mode.Record?
    ensures !RefreshMocked(h, st, name, payload)
  {
    hide ConsultMock;
    BareConsult(st, s, name, Key(name, payload));
    var a := h.answer(|st.ran|, name, payload);
    if a.refresh.Some? {
      BareConsult(st, s, "oauth.refresh", Key("oauth.refresh", RefreshPayload(a.refresh.value)));
    }
  }

  lemma BareRunsAreFaithful(h: Host, h': Host, st: State, g: Guest, n: nat, log: seq<Trace.Record>)
    requires Fresh(st) && st.mode.Record? && MockFreeRun(h, st, g, n)
    ensures FaithfulRun(h, h', log, st, g, n) <==> NoFanOutRun(h, st, g, n)
    ensures SpecsReload(h, h', log, st, g, n) && NoForgedDivergence(h, st, g, n)
  {
    hide Go, Track, Bare, Faithful, NoFanOut, RefreshMocked, Step, Materialises, Payload;
    forall k: nat | k < n
      ensures FaithfulAt(h, h', log, st, g, k) <==> NoFanOut(h, Go(h, st, g, k).st, OpAt(h, st, g, k))
      ensures OpReloads(h, h', log, OpAt(h, st, g, k))
      ensures var op := OpAt(h, st, g, k);
              op.Do? && Materialises(h, op.name, op.payload) ==>
                !RefreshMocked(h, Go(h, st, g, k).st, op.name, Payload(h, op.name, op.payload))
    {
      RunStaysBare(h, st, g, k, log);
      assert MockFree(OpAt(h, st, g, k));
      BareFaithful(h, h', Go(h, st, g, k).st, Track(h, log, st, g, k), OpAt(h, st, g, k));
    }
  }

  /** For every guest without in-span mocks that does not branch on span durations: the
      replies come back -- all of them, but for those durations -- if and only if no batch
      of the run has an item that comes as far as a record; and with grants on the replay,
      the cursor ends exhausted too if and only if these deny no recorded effect. */
  lemma ReplaysExactlyWithoutFanOut(h: Host, h': Host, rec: State, rep: State, g: Guest, n: nat, log: seq<Trace.Record>)
    requires log == Go(h, rec, g, n).st.log
    requires Starts(rec, rep, log) && rec.mode.Record?
    requires SameRuntime(h, h') && Blind(true, g) && MockFreeRun(h, rec, g, n)
    ensures var a, b := Go(h, rec, g, n), Go(h', rep, g, n);
            && (rep.grants.None? ==>
                  (VisibleAll(true, b.replies) == VisibleAll(true, a.replies) <==> NoFanOutRun(h, rec, g, n)))
            && (VisibleAll(true, b.replies) == VisibleAll(true, a.replies) && b.st.cursor.Exhausted()
                <==> NoFanOutRun(h, rec, g, n) && Granted(h', rep.grants, a.st.log))
  {
    hide Go, NoFanOut, FaithfulRun, VisibleAll, Blind, SameRuntime;
    RunStaysBare(h, rec, g, n, log);
    BareRunsAreFaithful(h, h', rec, g, n, log);
    ReplaysExactly(true, h, h', rec, rep, g, n, log);
  }

  // --- in Mock mode ---

  /** Every call of the run is one a replay gives back: no batch fans out, no refresh is met
      by the mock, and every blob read answered from the mock says what the directory says. */
  ghost predicate CallsFaithful(h: Host, h': Host, st: State, g: Guest, n: nat) {
    forall k: nat | k < n && OpAt(h, st, g, k).Do? ::
      FaithfulCall(h, h', Go(h, st, g, k).st, OpAt(h, st, g, k).name, OpAt(h, st, g, k).payload)
  }

  lemma BareBegins(h: Host, h': Host, st: State, s: Shadow, op: Op)
    requires Bare(st, s) && MockFree(op) && !op.Do?
    ensures Faithful(h, h', st, s, op)
  {
  }

  lemma BareSpecs(h: Host, h': Host, st: State, g: Guest, n: nat, log: seq<Trace.Record>)
    requires Fresh(st) && !st.mode.Replay? && MockFreeRun(h, st, g, n)
    ensures FaithfulRun(h, h', log, st, g, n) <==> CallsFaithful(h, h', st, g, n)
    ensures SpecsReload(h, h', log, st, g, n)
  {
    hide Go, Track, Bare, FaithfulCall, Step;
    forall k: nat | k < n
      ensures FaithfulAt(h, h', log, st, g, k) <==>
              OpAt(h, st, g, k).Do? ==> FaithfulCall(h, h', Go(h, st, g, k).st, OpAt(h, st, g, k).name, OpAt(h, st,
                  g, k).payload)
      ensures OpReloads(h, h', log, OpAt(h, st, g, k))
    {
      RunStaysBare(h, st, g, k, log);
      assert MockFree(OpAt(h, st, g, k));
      if !OpAt(h, st, g, k).Do? { BareBegins(h, h', Go(h, st, g, k).st, Track(h, log, st, g, k), OpAt(h, st, g, k)); }
    }
  }

  /** A recording in Mock mode -- a run against a trace -- of a guest without in-span mocks:
      the replies come back and the cursor ends exhausted if and only if every call is one
      a replay gives back and the replay's grants deny no recorded effect. */
  lemma MockedRunsReplay(h: Host, h': Host, rec: State, rep: State, g: Guest, n: nat, log: seq<Trace.Record>)
    requires log == Go(h, rec, g, n).st.log
    requires Starts(rec, rep, log)
    requires SameRuntime(h, h') && Blind(false, g) && MockFreeRun(h, rec, g, n) && NoForgedDivergence(h, rec, g, n)
    ensures var a, b := Go(h, rec, g, n), Go(h', rep, g, n);
            VisibleAll(false, b.replies) == VisibleAll(false, a.replies) && b.st.cursor.Exhausted()
            <==> CallsFaithful(h, h', rec, g, n) && Granted(h', rep.grants, a.st.log)
  {
    hide Go, FaithfulRun, CallsFaithful, VisibleAll, Blind, SameRuntime, Granted;
    BareSpecs(h, h', rec, g, n, log);
    ReplaysExactly(false, h, h', rec, rep, g, n, log);
  }

  /** ... and then, of the reply to an end, only the duration and the count of mocked
      answers can differ. */
  lemma MockedRunsDifferInCounts(h: Host, h': Host, rec: State, rep: State, g: Guest, n: nat, k: nat, log: seq<Trace.Record>)
    requires log == Go(h, rec, g, n).st.log
    requires k < n && Starts(rec, rep, log)
    requires SameRuntime(h, h') && Blind(false, g) && MockFreeRun(h, rec, g, n)
    requires CallsFaithful(h, h', rec, g, n) && Granted(h', rep.grants, log)
    requires OpAt(h, rec, g, k).End? && Go(h, rec, g, k).st.stack != []
    ensures var a, b := Go(h, rec, g, n).replies[k], Go(h', rep, g, n).replies[k];
            a.Ended? && b.Ended? && b.meta.(durMs := 0, mocked := 0) == a.meta.(durMs := 0, mocked := 0)
  {
    hide Go, Track, FaithfulRun, CallsFaithful, VisibleAll, Blind, SameRuntime, Granted, Step, Sync, Bare;
    BareSpecs(h, h', rec, g, n, log);
    FaithfulPrefix(h, h', rec, g, k, n, log);
    SimulatedUpTo(false, h, h', rec, rep, g, g, n, k, log);
    RunStaysBare(h, rec, g, k, log);
    ReplyAt(h, rec, g, n, k);
    ReplyAt(h', rep, g, n, k);
    StepInLog(h, rec, g, n, k);
    BareEnds(h, h', Track(h, log, rec, g, k), Go(h, rec, g, k).st, Go(h', rep, g, k).st, log, OpAt(h,
        rec, g, k));
  }

  lemma FaithfulPrefix(h: Host, h': Host, st: State, g: Guest, k: nat, n: nat, log: seq<Trace.Record>)
    requires k <= n && FaithfulRun(h, h', log, st, g, n) && SpecsReload(h, h', log, st, g, n) && MockFreeRun(h, st, g, n)
    ensures FaithfulRun(h, h', log, st, g, k) && SpecsReload(h, h', log, st, g, k) && MockFreeRun(h, st, g, k)
  {
    hide FaithfulAt, OpReloads, MockFree;
  }

  lemma BareEnds(h: Host, h': Host, s: Shadow, rec: State, rep: State, log: seq<Trace.Record>, op: Op)
    requires Sync(false, s, rec, rep, log) && Bare(rec, s) && op.End? && rec.stack != [] && Step(h, rec, op).0.log <= log
    ensures var a, b := Step(h, rec, op).1, Step(h', rep, op).1;
            a.Ended? && b.Ended? && b.meta.(durMs := 0, mocked := 0) == a.meta.(durMs := 0, mocked := 0)
  {
    hide Tracks, EraseAll, AfterClose, CloseSpan;
    EndIs(h, rec, op.ok, op.output, op.error);
    assert AfterClose(h, rec, op.ok, op.output, op.error).log <= log;
    EndRecordAlike(false, s, h, h', rec, rep, log, op.ok, op.output, op.error);
    CloseSimulated(false, s, h, h', rec, rep, log, op.ok, op.output, op.error);
    EndIs(h', rep, op.ok, op.output, op.error);
  }
}
