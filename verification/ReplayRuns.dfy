/** Whole runs: when a trace replays its run, and what comes back if it does not. */
module ReplayRuns {
  import opened Options
  import opened Json
  import opened Trace
  import opened Pipeline
  import opened FanOut
  import opened Nesting
  import opened Shadows
  import opened CallRecords
  import opened Replaying
  import opened Divergence

  // --- a recorded run and its shadow ---

  function Track(h: Host, log: seq<Trace.Record>, st: State, g: Guest, n: nat): Shadow {
    if n == 0 then UNSHADED else Shade(h, log, Go(h, st, g, n - 1).st, Track(h, log, st, g, n - 1), OpAt(h, st, g,
        n - 1))
  }

  /** Step k of the recording is one a replay gives back. */
  ghost predicate FaithfulAt(h: Host, h': Host, log: seq<Trace.Record>, st: State, g: Guest, k: nat) {
    Faithful(h, h', Go(h, st, g, k).st, Track(h, log, st, g, k), OpAt(h, st, g, k))
  }

  ghost predicate FaithfulRun(h: Host, h': Host, log: seq<Trace.Record>, st: State, g: Guest, n: nat) {
    forall k: nat | k < n :: FaithfulAt(h, h', log, st, g, k)
  }

  /** Mocks had no part in any call. */
  ghost predicate MocksAsideRun(h: Host, log: seq<Trace.Record>, st: State, g: Guest, n: nat) {
    forall k: nat | k < n :: MocksAside(h, log, Go(h, st, g, k).st, OpAt(h, st, g, k))
  }

  /** The replay's store has every run a spec of the recording names. */
  ghost predicate SpecsReload(h: Host, h': Host, log: seq<Trace.Record>, st: State, g: Guest, n: nat) {
    forall k: nat | k < n :: OpReloads(h, h', log, OpAt(h, st, g, k))
  }

  /** A recorder -- Record or Mock mode, with whatever grants and mocks -- at the start of
      a run, and a replayer of `log` with whatever grants. */
  ghost predicate Starts(rec: State, rep: State, log: seq<Trace.Record>) {
    && Fresh(rec) && Fresh(rep) && !rec.mode.Replay? && rep.mode.Replay?
    && rep.cell == rec.cell && rep.cursor.log == log
  }

  lemma FinishGrows(h: Host, st: State, cell: string, ok: bool, error: Json, interrupted: bool)
    requires !st.mode.Replay?
    ensures var st' := FinishCell(h, st, cell, ok, error, interrupted).0; st.log <= st'.log && st'.mode == st.mode
  {
    hide CloseAll;
    CloseAllGrows(h, st, cell);
  }

  lemma StepGrows(h: Host, st: State, op: Op)
    requires !st.mode.Replay?
    ensures st.log <= Step(h, st, op).0.log && Step(h, st, op).0.mode == st.mode
  {
    hide Call, BeginSpan, EndSpan, FinishCell;
    match op
    case Begin(name, kind, input) => BeginPushes(h, st, name, kind, input);
    case End(ok, output, error) => EndGrows(h, st, ok, output, error);
    case Do(name, payload) => CallAddsEffects(h, st, name, payload);
    case CellDone(cell, ok, error, interrupted) => FinishGrows(h, st, cell, ok, error, interrupted);
  }

  lemma {:induction false} GoGrows(h: Host, st: State, g: Guest, k: nat, n: nat)
    requires !st.mode.Replay? && k <= n
    ensures Go(h, st, g, k).st.log <= Go(h, st, g, n).st.log
    ensures Go(h, st, g, n).st.mode == st.mode
    decreases n
  {
    hide Step;
    if k < n {
      GoGrows(h, st, g, k, n - 1);
      StepGrows(h, Go(h, st, g, n - 1).st, OpAt(h, st, g, n - 1));
    } else if n > 0 {
      GoGrows(h, st, g, n - 1, n - 1);
      StepGrows(h, Go(h, st, g, n - 1).st, OpAt(h, st, g, n - 1));
    }
  }

  /** The replayer follows a guest `g'` that has so far made the recorded guest's
      choices. */
  ghost predicate AgreesUpTo(h': Host, rep: State, g: Guest, g': Guest, k: nat) {
    forall j: nat :: j < k ==> g'(Go(h', rep, g', j).replies) == g(Go(h', rep, g', j).replies)
  }

  lemma VisibleSnoc(exact: bool, a: seq<Reply>, x: Reply, b: seq<Reply>, y: Reply)
    requires VisibleAll(exact, a) == VisibleAll(exact, b) && Visible(exact, x) == Visible(exact, y)
    ensures VisibleAll(exact, a + [x]) == VisibleAll(exact, b + [y])
  {
    assert |VisibleAll(exact, a)| == |a| && |VisibleAll(exact, b)| == |b|;
    assert VisibleAll(exact, a + [x]) == VisibleAll(exact, a) + [Visible(exact, x)];
    assert VisibleAll(exact, b + [y]) == VisibleAll(exact, b) + [Visible(exact, y)];
  }

  lemma SyncAtStart(exact: bool, rec: State, rep: State, log: seq<Trace.Record>)
    requires Starts(rec, rep, log)
    ensures Sync(exact, UNSHADED, rec, rep, log)
  {
  }

  lemma {:induction false} SimulatedUpTo(exact: bool, h: Host, h': Host, rec: State, rep: State, g: Guest, g': Guest,
                                         n: nat, k: nat, log: seq<Trace.Record>)
    requires log == Go(h, rec, g, n).st.log
    requires k <= n && Starts(rec, rep, log)
    requires SameRuntime(h, h') && Blind(exact, g) && Granted(h', rep.grants, log)
    requires FaithfulRun(h, h', log, rec, g, k) && SpecsReload(h, h', log, rec, g, k)
    requires exact ==> MocksAsideRun(h, log, rec, g, k)
    requires AgreesUpTo(h', rep, g, g', k)
    ensures var a, b := Go(h, rec, g, k), Go(h', rep, g', k);
            && Sync(exact, Track(h, log, rec, g, k), a.st, b.st, log)
            && VisibleAll(exact, b.replies) == VisibleAll(exact, a.replies) && OnlyBlobReads([], b.st.ran)
            && b.st.grants == rep.grants && g(b.replies) == g(a.replies)
  {
    hide Sync, SameRuntime, Granted, Faithful, OpReloads, MocksAside, Shade, VisibleAll, Step;
    if k == 0 {
      SyncAtStart(exact, rec, rep, log);
    } else {
      SimulatedUpTo(exact, h, h', rec, rep, g, g', n, k - 1, log);
      var a, b := Go(h, rec, g, k - 1), Go(h', rep, g', k - 1);
      var op := g(a.replies);
      assert op == g'(b.replies);
      GoGrows(h, rec, g, k, n);
      assert FaithfulAt(h, h', log, rec, g, k - 1);
      StepSimulated(exact, Track(h, log, rec, g, k - 1), h, h', a.st, b.st, log, op);
      VisibleSnoc(exact, b.replies, Step(h', b.st, op).1, a.replies, Step(h, a.st, op).1);
    }
  }

  /** A trace replays its run.  For every deterministic guest, any outside world at record
      time and any other at replay time, mocks and grants on either side: if every step of
      the recording is one a replay gives back, and the replay's grants deny no recorded
      effect, then every reply is the recorded one, up to what the view leaves out; the
      cursor ends exhausted; nothing executes live except blob reads; and the replay writes
      the same trace again, but for `mocked` marks and what the view leaves out. */
  lemma RecordThenReplay(exact: bool, h: Host, h': Host, rec: State, rep: State, g: Guest, n: nat,
                         log: seq<Trace.Record>)
    requires log == Go(h, rec, g, n).st.log
    requires Starts(rec, rep, log)
    requires SameRuntime(h, h') && Blind(exact, g) && Granted(h', rep.grants, log)
    requires FaithfulRun(h, h', log, rec, g, n) && SpecsReload(h, h', log, rec, g, n)
    requires exact ==> MocksAsideRun(h, log, rec, g, n)
    ensures var a, b := Go(h, rec, g, n), Go(h', rep, g, n);
            && VisibleAll(exact, b.replies) == VisibleAll(exact, a.replies)
            && b.st.cursor.Exhausted()
            && OnlyBlobReads([], b.st.ran)
            && EraseAll(exact, b.st.log) == EraseAll(exact, a.st.log)
            && b.st.mutations == a.st.mutations
            && (exact ==> b.st.stack == a.st.stack)
  {
    hide Sync, FaithfulRun, MocksAsideRun, SpecsReload, Granted, Go, SameRuntime, Blind, Starts;
    SimulatedUpTo(exact, h, h', rec, rep, g, g, n, n, log);
    SyncSays(exact, Track(h, log, rec, g, n), Go(h, rec, g, n).st, Go(h', rep, g, n).st);
  }

  lemma SyncSays(exact: bool, s: Shadow, a: State, b: State)
    requires Sync(exact, s, a, b, a.log)
    ensures b.cursor.Exhausted() && EraseAll(exact, b.log) == EraseAll(exact, a.log) && b.mutations == a.mutations
    ensures exact ==> b.stack == a.stack
  {
    hide Level, Untouched, EraseAll;
  }

  /** In the exact view, nothing but a span's duration can differ. */
  lemma OnlyDurationsDiffer(a: seq<Reply>, b: seq<Reply>)
    requires VisibleAll(true, b) == VisibleAll(true, a)
    ensures b == a <==>
            |b| == |a| && forall i :: 0 <= i < |a| && a[i].Ended? ==> b[i].Ended? && b[i].meta.durMs == a[i].meta.durMs
  {
    assert |VisibleAll(true, a)| == |a| && |VisibleAll(true, b)| == |b|;
    forall i | 0 <= i < |a| ensures Visible(true, b[i]) == Visible(true, a[i]) {
      assert VisibleAll(true, b)[i] == VisibleAll(true, a)[i];
    }
    if forall i :: 0 <= i < |a| && a[i].Ended? ==> b[i].Ended? && b[i].meta.durMs == a[i].meta.durMs {
      forall i | 0 <= i < |a| ensures b[i] == a[i] {
        assert Visible(true, b[i]) == Visible(true, a[i]);
      }
    }
  }

  // --- the steps a replay does not give back ---

  lemma WithItemsDiverges(h': Host, before: seq<Trace.Record>, rep: State, log: seq<Trace.Record>, payload: Json,
                          inner: seq<Trace.Record>)
    requires rep.cursor == Cursor(log, |before|) && before + inner <= log && !IsDenied(h', rep, "batch", payload)
    requires inner != [] && AllInner(inner, Size(payload)) && EndsPlain(inner)
    ensures Unmet(h', rep, Do("batch", payload))
  {
    hide HeadFor, Inner, IsDenied, EndsPlain;
    InTheLog(before, inner, log);
    HeadStopsInside(rep.cursor, inner, payload);
    BatchUnmet(h', rep, payload);
  }

  lemma InTheLog(before: seq<Trace.Record>, inner: seq<Trace.Record>, log: seq<Trace.Record>)
    requires before + inner <= log
    ensures |before| + |inner| <= |log| && forall i :: 0 <= i < |inner| ==> log[|before| + i] == inner[i]
  {
    forall i | 0 <= i < |inner| ensures log[|before| + i] == inner[i] {
      assert (before + inner)[|before| + i] == inner[i];
    }
  }

  lemma BatchUnmet(h: Host, st: State, payload: Json)
    requires !IsDenied(h, st, "batch", payload)
    requires !HeadFor(st.cursor, "batch", Key("batch", payload)).AtEffect("batch", Key("batch", payload))
    ensures Unmet(h, st, Do("batch", payload))
  {
    hide HeadFor, IsDenied;
    BatchIsItsOwn();
  }

  lemma RefreshFirstDiverges(h': Host, before: seq<Trace.Record>, rep: State, log: seq<Trace.Record>,
                             name: string, payload: Json, r: Trace.Record)
    requires rep.cursor == Cursor(log, |before|) && before + [r] <= log && !IsDenied(h', rep, name, payload)
    requires IsHttp(name) && r.Effect? && r.name == "oauth.refresh" && !r.emeta.hosted
    ensures Unmet(h', rep, Do(name, payload))
  {
    hide IsDenied;
    assert log[|before|] == r;
    assert "oauth.refresh"[0] != "http."[0] && "blob.put"[0] != "http."[0];
  }

  /** A mocked read whose slot is not what the directory holds. */
  lemma MisfitRead(exact: bool, s: Shadow, h: Host, h': Host, rec: State, rep: State, log: seq<Trace.Record>,
                   payload: Json)
    requires Sync(exact, s, rec, rep, log) && SameRuntime(h, h') && !IsDenied(h, rec, "blob.read", payload)
    requires Servable(h, rec, "blob.read", payload) && !SlotFits(h', rec, "blob.read", payload)
    requires Call(h, rec, "blob.read", payload).0.log <= log && !IsDenied(h', rep, "blob.read", payload)
    ensures Step(h', rep, Do("blob.read", payload)).1 != Step(h, rec, Do("blob.read", payload)).1
    ensures !Step(h', rep, Do("blob.read", payload)).1.Ended? && !Step(h, rec, Do("blob.read", payload)).1.Ended?
  {
    hide ConsultMock, CallAdmitted, Tracks, Servable, Besides, Drain, HeadFor, EraseAll;
    assert |"blob.read"| != |"blob.put"|;
    assert "blob.read"[0] != "http."[0];
    var key := Key("blob.read", payload);
    var p := RecordAdmitted(h, rec, "blob.read", payload);
    var end := Call(h, rec, "blob.read", payload).0;
    assert p.pre.None?;
    BesidesKeepsLog(rec, Classify(h, "blob.read", payload), p, end);
    assert log[|rec.log|] == p.own;
    MetAtHead(rep.cursor, "blob.read", key);
    MetIsServed(h', rep, "blob.read", payload);
  }

  lemma MetAtHead(c: Cursor, name: string, key: Key)
    requires c.AtEffect(name, key)
    ensures HeadFor(c, name, key) == c
  {
  }

  lemma CallDiffers(exact: bool, s: Shadow, h: Host, h': Host, rec: State, rep: State, log: seq<Trace.Record>,
                    name: string, given: Json)
    requires Sync(exact, s, rec, rep, log) && SameRuntime(h, h') && Granted(h', rep.grants, log)
    requires !FaithfulCall(h, h', rec, name, given) && Call(h, rec, name, given).0.log <= log
    requires Materialises(h, name, given) && RefreshMocked(h, rec, name, Payload(h, name, given)) ==>
               Step(h, rec, Do(name, given)).1 != Failed(DIVERGENCE)
    ensures Visible(exact, Step(h', rep, Do(name, given)).1) != Visible(exact, Step(h, rec, Do(name, given)).1)
  {
    hide Sync, SameRuntime, Granted, Call, RefreshMocked, Alone, IsDenied, SlotFits, OwnsLast, Unmet;
    var payload := Payload(h, name, given);
    var rec' := Call(h, rec, name, given).0;
    SyncModes(exact, s, rec, rep, log, h, h');
    SyncPlaces(exact, s, rec, rep, log);
    CallOwnsLast(h, rec, name, given);
    AdmittedOnReplay(h', rep, log, rec', rec, name, payload, Classify(h, name, payload));
    if name == "batch" && !Alone(h, rec, payload) {
      BatchIsItsOwn();
      var inner := BatchFansOut(h, rec, payload);
      WithItemsDiverges(h', rec.log, rep, log, payload, inner);
      UnmetDiverges(h', rep, Do(name, given));
    } else if RefreshMocked(h, rec, name, payload) {
      HttpIsItsOwn(h, rec, name, payload);
      var r := RefreshFirst(h, rec, name, payload);
      RefreshFirstDiverges(h', rec.log, rep, log, name, payload, r);
      UnmetDiverges(h', rep, Do(name, given));
    } else {
      assert name == "blob.read" by { OnlyReadsMisfit(h', rec, name, payload); }
      MisfitRead(exact, s, h, h', rec, rep, log, payload);
    }
  }

  lemma HttpIsItsOwn(h: Host, st: State, name: string, payload: Json)
    requires RefreshMocked(h, st, name, payload)
    ensures IsHttp(name) && name != "blob.put"
  {
    assert "blob.put"[0] != "http."[0];
  }

  lemma OnlyReadsMisfit(h': Host, st: State, name: string, payload: Json)
    requires !SlotFits(h', st, name, payload)
    ensures name == "blob.read" && name != "blob.put"
  {
    assert |"blob.read"| != |"blob.put"|;
  }

  /** A begin whose spec does not build is refused when recorded, and leaves no record to
      meet; or one whose facade the shadow serves otherwise. */
  lemma BeginDiffers(exact: bool, s: Shadow, h: Host, h': Host, rec: State, rep: State, log: seq<Trace.Record>, op: Op)
    requires Sync(exact, s, rec, rep, log) && op.Begin? && !FaithfulBegin(h, rec, s, op.name, op.input)
    requires BeginSpan(h, rec, op.name, op.kind, op.input).0.log <= log
    requires MockSpecOf(op.input).Some? ==> !rep.cursor.AtBegin(op.name, Key(op.name, op.input))
    ensures Visible(exact, Step(h', rep, op).1) != Visible(exact, Step(h, rec, op).1)
  {
    hide Sync, SlotFor, Consulted, Unmet;
    SyncPlaces(exact, s, rec, rep, log);
    if MockSpecOf(op.input).Some? {
      assert DIVERGENCE.kind[0] == 'D' && "mock_spec"[0] == 'm';
      assert Unmet(h', rep, op) by { NotAtBegin(h', rep, op); }
      UnmetDiverges(h', rep, op);
    } else {
      hide BeginSpan;
      var key := Key(op.name, op.input);
      AskSimulated(exact, s, rec, rep, log, op.name, key);
      FacadeBeginIs(h, rec, op.name, op.kind, op.input);
      AtTheBegin(rec, rep, log, BeginOf(rec.(spanN := rec.spanN + 1), op.name, op.input), op.name, key);
      FacadeBeginIs(h', rep, op.name, op.kind, op.input);
    }
  }

  lemma NotAtBegin(h: Host, st: State, op: Op)
    requires op.Begin? && !st.cursor.AtBegin(op.name, Key(op.name, op.input))
    ensures Unmet(h, st, op)
  {
  }

  // --- after a spec that does not build ---

  /** The next record is not a begin of the same span: asked again, the same spec over the
      same trace does not build either. */
  predicate NotThatBegin(r: Trace.Record, name: string, input: Json) {
    !(r.SpanBegin? && r.name == name && r.key == Key(name, input))
  }

  lemma CloseAllFirst(h: Host, st: State, cell: string)
    requires !st.mode.Replay?
    ensures var log := CloseAll(h, st, cell).0.log;
            st.log <= log && (|log| > |st.log| ==> log[|st.log|].SpanEnd?)
  {
    hide AfterClose, EndMeta;
    if st.stack != [] {
      var st1 := EndSpan(h, st, false, Null, UnclosedSpan(cell)).0;
      EndIs(h, st, false, Null, UnclosedSpan(cell));
      ClosedFirst(h, st, false, Null, UnclosedSpan(cell));
      CloseAllGrows(h, st1, cell);
    }
  }

  lemma ClosedFirst(h: Host, st: State, ok: bool, output: Json, error: Json)
    requires st.stack != []
    ensures var st' := AfterClose(h, st, ok, output, error);
            |st'.log| == |st.log| + 1 && st.log <= st'.log && st'.log[|st.log|].SpanEnd? && st'.mode == st.mode
  {
    hide EndMeta;
  }

  lemma FailedSpecIsNotRecorded(h: Host, st: State, op: Op, name: string, input: Json)
    requires !st.mode.Replay? && MockSpecOf(input).Some? && BuildMock(h, MockSpecOf(input).value, st.log).Err?
    ensures var log := Step(h, st, op).0.log;
            st.log <= log && (|log| > |st.log| ==> NotThatBegin(log[|st.log|], name, input))
  {
    hide Call, EndMeta, CloseAll, AfterClose;
    StepGrows(h, st, op);
    match op
    case Begin(name', kind, input') =>
      if MockSpecOf(input').None? { FacadeBeginIs(h, st, name', kind, input'); }
      else if BuildMock(h, MockSpecOf(input').value, st.log).Ok? {
        SpecBeginIs(h, st, name', kind, input', BuildMock(h, MockSpecOf(input').value, st.log).value);
      }
    case End(ok, output, error) =>
      if st.stack != [] {
        EndIs(h, st, ok, output, error);
        ClosedFirst(h, st, ok, output, error);
      }
    case Do(name', payload) =>
      CallAddsEffects(h, st, name', payload);
      var news := Step(h, st, op).0.log[|st.log|..];
      assert |news| > 0 ==> news[0].Effect?;
    case CellDone(cell, ok, error, interrupted) => CloseAllFirst(h, st, cell);
  }

  lemma {:induction false} FailedSpecLeavesNoBegin(h: Host, st: State, g: Guest, k: nat, n: nat, name: string,
                                                   input: Json)
    requires !st.mode.Replay? && k <= n && MockSpecOf(input).Some?
    requires BuildMock(h, MockSpecOf(input).value, Go(h, st, g, k).st.log).Err?
    ensures var log, log' := Go(h, st, g, k).st.log, Go(h, st, g, n).st.log;
            log <= log' && (|log'| > |log| ==> NotThatBegin(log'[|log|], name, input))
    decreases n
  {
    hide Step, NotThatBegin;
    if k < n {
      FailedSpecLeavesNoBegin(h, st, g, k, n - 1, name, input);
      var before := Go(h, st, g, n - 1).st;
      GoGrows(h, st, g, n - 1, n - 1);
      StepGrows(h, before, OpAt(h, st, g, n - 1));
      if |before.log| == |Go(h, st, g, k).st.log| {
        assert before.log == Go(h, st, g, k).st.log;
        FailedSpecIsNotRecorded(h, before, OpAt(h, st, g, n - 1), name, input);
      }
    }
  }

  // --- exactly when ---

  /** A refresh answered by a mock that itself forges the broker's own refusal is left out. */
  ghost predicate NoForgedDivergence(h: Host, st: State, g: Guest, n: nat) {
    forall k: nat | k < n && OpAt(h, st, g, k).Do? ::
      var op := OpAt(h, st, g, k);
      Materialises(h, op.name, op.payload) && RefreshMocked(h, Go(h, st, g, k).st, op.name, Payload(h, op.name,
          op.payload)) ==>
        Step(h, Go(h, st, g, k).st, op).1 != Failed(DIVERGENCE)
  }

  /** One unfaithful step, in step until then. */
  lemma StepDiffers(exact: bool, s: Shadow, h: Host, h': Host, rec: State, rep: State, log: seq<Trace.Record>, op: Op)
    requires Sync(exact, s, rec, rep, log) && SameRuntime(h, h') && Granted(h', rep.grants, log)
    requires !Faithful(h, h', rec, s, op) && Step(h, rec, op).0.log <= log
    requires op.Do? && Materialises(h, op.name, op.payload) && RefreshMocked(h, rec, op.name, Payload(h, op.name,
        op.payload)) ==>
               Step(h, rec, op).1 != Failed(DIVERGENCE)
    requires op.Begin? && MockSpecOf(op.input).Some? && BuildMock(h, MockSpecOf(op.input).value, rec.log).Err? ==>
               |log| > |rec.log| ==> NotThatBegin(log[|rec.log|], op.name, op.input)
    ensures Visible(exact, Step(h', rep, op).1) != Visible(exact, Step(h, rec, op).1)
  {
    hide Step, Sync, SameRuntime, Granted, FaithfulBegin, FaithfulCall, RefreshMocked, Visible, NotThatBegin;
    if op.Do? {
      assert Call(h, rec, op.name, op.payload).0 == Step(h, rec, op).0 by { DoIsCall(h, rec, op); }
      DoDiffers(exact, s, h, h', rec, rep, log, op);
    } else {
      assert BeginSpan(h, rec, op.name, op.kind, op.input).0 == Step(h, rec, op).0 by { BeginIsBegin(h, rec, op); }
      if MockSpecOf(op.input).Some? {
        SpecFails(h, rec, s, op);
        SyncPlaces(exact, s, rec, rep, log);
        AtBeginOf(rep, log, rec.log, op.name, op.input);
      }
      BeginDiffers(exact, s, h, h', rec, rep, log, op);
    }
  }

  lemma DoDiffers(exact: bool, s: Shadow, h: Host, h': Host, rec: State, rep: State, log: seq<Trace.Record>, op: Op)
    requires Sync(exact, s, rec, rep, log) && SameRuntime(h, h') && Granted(h', rep.grants, log)
    requires op.Do? && !FaithfulCall(h, h', rec, op.name, op.payload) && Call(h, rec, op.name, op.payload).0.log <= log
    requires Materialises(h, op.name, op.payload) && RefreshMocked(h, rec, op.name, Payload(h, op.name, op.payload)) ==>
               Step(h, rec, op).1 != Failed(DIVERGENCE)
    ensures Visible(exact, Step(h', rep, op).1) != Visible(exact, Step(h, rec, op).1)
  {
    hide *;
    assert op == Do(op.name, op.payload);
    CallDiffers(exact, s, h, h', rec, rep, log, op.name, op.payload);
  }

  lemma UnfaithfulStepDiffers(exact: bool, h: Host, h': Host, rec: State, rep: State, g: Guest, n: nat, k: nat,
                              log: seq<Trace.Record>)
    requires log == Go(h, rec, g, n).st.log
    requires k < n && Starts(rec, rep, log)
    requires SameRuntime(h, h') && Blind(exact, g) && Granted(h', rep.grants, log)
    requires FaithfulRun(h, h', log, rec, g, k) && !FaithfulAt(h, h', log, rec, g, k)
    requires SpecsReload(h, h', log, rec, g, n) && (exact ==> MocksAsideRun(h, log, rec, g, n))
             && NoForgedDivergence(h, rec, g, n)
    ensures Visible(exact, Go(h', rep, g, k + 1).replies[k]) != Visible(exact, Go(h, rec, g, k + 1).replies[k])
  {
    hide Step, Sync, SameRuntime, Granted, FaithfulRun, Faithful, RefreshMocked, VisibleAll, Visible, NotThatBegin,
         Materialises, Payload, Blind, BuildMock, OpReloads, MocksAside, Track;
    SimulatedUpTo(exact, h, h', rec, rep, g, g, n, k, log);
    var a, b := Go(h, rec, g, k), Go(h', rep, g, k);
    var op := OpAt(h, rec, g, k);
    GoGrows(h, rec, g, k + 1, n);
    if op.Begin? && MockSpecOf(op.input).Some? && BuildMock(h, MockSpecOf(op.input).value, a.st.log).Err? {
      FailedSpecLeavesNoBegin(h, rec, g, k, n, op.name, op.input);
    }
    StepDiffers(exact, Track(h, log, rec, g, k), h, h', a.st, b.st, log, op);
  }

  lemma DoIsCall(h: Host, st: State, op: Op)
    requires op.Do?
    ensures Call(h, st, op.name, op.payload).0 == Step(h, st, op).0
  {
    hide Call;
  }

  lemma BeginIsBegin(h: Host, st: State, op: Op)
    requires op.Begin?
    ensures BeginSpan(h, st, op.name, op.kind, op.input) == Step(h, st, op)
  {
    hide BeginSpan;
  }

  lemma SpecFails(h: Host, st: State, s: Shadow, op: Op)
    requires op.Begin? && MockSpecOf(op.input).Some? && !FaithfulBegin(h, st, s, op.name, op.input)
    ensures BuildMock(h, MockSpecOf(op.input).value, st.log).Err?
  {
  }

  lemma AtBeginOf(rep: State, log: seq<Trace.Record>, before: seq<Trace.Record>, name: string, input: Json)
    requires rep.cursor == Cursor(log, |before|)
    requires |log| > |before| ==> NotThatBegin(log[|before|], name, input)
    ensures !rep.cursor.AtBegin(name, Key(name, input))
  {
  }

  lemma {:induction false} FirstUnfaithful(h: Host, h': Host, st: State, g: Guest, n: nat,
                                           log: seq<Trace.Record>) returns (k: nat)
    requires !FaithfulRun(h, h', log, st, g, n)
    ensures k < n && FaithfulRun(h, h', log, st, g, k) && !FaithfulAt(h, h', log, st, g, k)
  {
    hide FaithfulAt;
    if n > 0 && !FaithfulRun(h, h', log, st, g, n - 1) {
      k := FirstUnfaithful(h, h', st, g, n - 1, log);
    } else {
      k := n - 1;
    }
  }

  lemma {:induction false} GoPrefix(h: Host, st: State, g: Guest, k: nat, n: nat)
    requires k <= n
    ensures Go(h, st, g, n).replies[..k] == Go(h, st, g, k).replies
    decreases n
  {
    hide Step;
    if k < n { GoPrefix(h, st, g, k, n - 1); }
  }

  /** The records of guests' effects carry the key of their own name and input. */
  ghost predicate Keyed(log: seq<Trace.Record>) {
    forall j | 0 <= j < |log| && log[j].Effect? :: log[j].key == Key(log[j].name, log[j].input)
  }

  lemma StepKeepsKeyed(h: Host, st: State, op: Op)
    requires !st.mode.Replay? && st.hosted == 0 && Keyed(st.log)
    ensures Keyed(Step(h, st, op).0.log) && Step(h, st, op).0.hosted == 0
  {
    hide Call, EndMeta, CloseAll, BeginSpan, EndSpan;
    var st' := Step(h, st, op).0;
    match op
    case Begin(name, kind, input) =>
      BeginPushes(h, st, name, kind, input);
      BeginKeepsHosted(h, st, name, kind, input);
    case End(ok, output, error) => EndKeepsKeyed(h, st, ok, output, error);
    case Do(name, payload) =>
      CallAppends(h, st, name, payload, Size(payload) + 1);
      var news := st'.log[|st.log|..];
      assert st'.log == st.log + news;
    case CellDone(cell, ok, error, interrupted) => CloseAllKeepsKeyed(h, st, cell);
  }

  lemma BeginKeepsHosted(h: Host, st: State, name: string, kind: Option<string>, input: Json)
    requires !st.mode.Replay?
    ensures BeginSpan(h, st, name, kind, input).0.hosted == st.hosted
  {
    hide ServeSpan;
    ServeSpanKeepsRest(st.(spanN := st.spanN + 1), name, Key(name, input));
  }

  lemma EndKeepsKeyed(h: Host, st: State, ok: bool, output: Json, error: Json)
    requires !st.mode.Replay? && Keyed(st.log)
    ensures var st' := EndSpan(h, st, ok, output, error).0;
            Keyed(st'.log) && st'.hosted == st.hosted && st'.mode == st.mode
            && (st.stack != [] ==> |st'.stack| == |st.stack| - 1)
  {
    hide EndMeta;
    if st.stack != [] {
      hide EndSpan;
      EndIs(h, st, ok, output, error);
    }
  }

  lemma {:induction false} CloseAllKeepsKeyed(h: Host, st: State, cell: string)
    requires !st.mode.Replay? && Keyed(st.log)
    ensures var st' := CloseAll(h, st, cell).0; Keyed(st'.log) && st'.hosted == st.hosted
    decreases |st.stack|
  {
    if st.stack != [] {
      hide EndSpan;
      EndKeepsKeyed(h, st, false, Null, UnclosedSpan(cell));
      CloseAllKeepsKeyed(h, EndSpan(h, st, false, Null, UnclosedSpan(cell)).0, cell);
    }
  }

  lemma {:induction false} RunsAreKeyed(h: Host, st: State, g: Guest, n: nat)
    requires Fresh(st) && !st.mode.Replay?
    ensures var end := Go(h, st, g, n).st; Keyed(end.log) && end.hosted == 0 && end.mode == st.mode
  {
    hide Step, Keyed;
    if n == 0 {
      assert Keyed(st.log) by { NothingKeyed(); }
    } else {
      RunsAreKeyed(h, st, g, n - 1);
      StepKeepsKeyed(h, Go(h, st, g, n - 1).st, OpAt(h, st, g, n - 1));
      StepGrows(h, Go(h, st, g, n - 1).st, OpAt(h, st, g, n - 1));
    }
  }

  lemma NothingKeyed()
    ensures Keyed([])
  {
  }

  lemma {:induction false} RunStaysBarred(h: Host, st: State, g: Guest, n: nat, j: nat)
    requires Barred(h, st, j)
    ensures Barred(h, Go(h, st, g, n).st, j)
  {
    hide Step, Barred;
    if n > 0 {
      RunStaysBarred(h, st, g, n - 1, j);
      StepKeepsBarred(h, Go(h, st, g, n - 1).st, OpAt(h, st, g, n - 1), j);
    }
  }

  /** Grants that deny a recorded effect: whatever the guest does, the cursor never gets
      past its record. */
  lemma DenialStallsTheCursor(h: Host, h': Host, rec: State, rep: State, g: Guest, g': Guest, n: nat, m: nat)
    requires Starts(rec, rep, Go(h, rec, g, n).st.log) && !Granted(h', rep.grants, Go(h, rec, g, n).st.log)
    ensures !Go(h', rep, g', m).st.cursor.Exhausted()
  {
    hide Step;
    var log := Go(h, rec, g, n).st.log;
    RunsAreKeyed(h, rec, g, n);
    var j :| 0 <= j < |log| && log[j].Effect? && !log[j].emeta.hosted
             && !rep.grants.value.Allowed(CapOf(h', log[j].name, log[j].input));
    assert Barred(h', rep, j);
    RunStaysBarred(h', rep, g', m, j);
  }

  /** Exactly when a trace replays its run: the replies come back, up to what the view
      leaves out, and the cursor ends exhausted, if and only if every step of the recording
      is one a replay gives back and the replay's grants deny no recorded effect. */
  lemma ReplaysExactly(exact: bool, h: Host, h': Host, rec: State, rep: State, g: Guest, n: nat, log: seq<Trace.Record>)
    requires log == Go(h, rec, g, n).st.log
    requires Starts(rec, rep, log)
    requires SameRuntime(h, h') && Blind(exact, g) && SpecsReload(h, h', log, rec, g, n)
    requires (exact ==> MocksAsideRun(h, log, rec, g, n)) && NoForgedDivergence(h, rec, g, n)
    ensures var a, b := Go(h, rec, g, n), Go(h', rep, g, n);
            VisibleAll(exact, b.replies) == VisibleAll(exact, a.replies) && b.st.cursor.Exhausted()
            <==> FaithfulRun(h, h', log, rec, g, n) && Granted(h', rep.grants, a.st.log)
    ensures Granted(h', rep.grants, log) ==>
              (VisibleAll(exact, Go(h', rep, g, n).replies) == VisibleAll(exact, Go(h, rec, g, n).replies)
               <==> FaithfulRun(h, h', log, rec, g, n))
  {
    hide Go, FaithfulAt, Starts, FaithfulRun, Granted, SpecsReload, MocksAsideRun, NoForgedDivergence, Blind,
         SameRuntime;
    if !Granted(h', rep.grants, log) {
      DenialStallsTheCursor(h, h', rec, rep, g, g, n, n);
    } else if FaithfulRun(h, h', log, rec, g, n) {
      RecordThenReplay(exact, h, h', rec, rep, g, n, log);
    } else {
      var k := FirstUnfaithful(h, h', rec, g, n, log);
      UnfaithfulStepDiffers(exact, h, h', rec, rep, g, n, k, log);
      GoPrefix(h, rec, g, k + 1, n);
      GoPrefix(h', rep, g, k + 1, n);
      var a, b := Go(h, rec, g, n).replies, Go(h', rep, g, n).replies;
      assert b[k] == b[..k + 1][k] && a[k] == a[..k + 1][k];
      assert VisibleAll(exact, b)[k] == Visible(exact, b[k]) && VisibleAll(exact, a)[k] == Visible(exact, a[k]);
    }
  }
}
