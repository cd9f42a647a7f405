/** What the capability gate tests, what the records say of it, and what class they give an
    effect: in terms of the routing tables and the names of effects alone. */
module Gate {
  import opened Options
  import opened Json
  import opened Trace
  import opened Mocks
  import opened Caps
  import opened Pipeline
  import opened FanOut
  import Reentry

  /** The grants allow the effect: an http call by what its route is classed as, any other
      by its own name. */
  ghost predicate Allows(h: Host, g: GrantSet, name: string, payload: Json) {
    && (forall verb | name == "http." + verb :: g.Allowed(h.httpCap(verb, GetStr(payload, "url"))))
    && (!("http." <= name) ==> g.Allowed(name))
  }

  lemma VerbOf(name: string, verb: string)
    requires name == "http." + verb
    ensures "http." <= name && name[5..] == verb
  {
  }

  lemma AllowsMeans(h: Host, g: GrantSet, name: string, payload: Json)
    ensures Allows(h, g, name, payload) <==> g.Allowed(CapOf(h, name, payload))
  {
    if "http." <= name {
      assert name == "http." + name[5..];
    }
    forall verb | name == "http." + verb ensures "http." <= name && name[5..] == verb { VerbOf(name, verb); }
  }

  /** Everything a run executed was allowed, or the host emitted it itself. */
  ghost predicate AllAllowed(h: Host, g: GrantSet, ran: seq<Execution>) {
    forall k | 0 <= k < |ran| :: ran[k].hosted || Allows(h, g, ran[k].name, ran[k].payload)
  }

  lemma CallStaysAllowed(h: Host, g: GrantSet, st: State, name: string, given: Json)
    requires st.grants == Some(g) && st.hosted >= 0 && AllAllowed(h, g, st.ran)
    ensures var st' := Call(h, st, name, given).0;
            AllAllowed(h, g, st'.ran) && st'.grants == st.grants && st'.hosted == st.hosted
  {
    hide Call, Allows, CapOf;
    Reentry.EveryRunIsGranted(h, g, st, name, given);
    var ran := Call(h, st, name, given).0.ran;
    forall k | 0 <= k < |ran| ensures ran[k].hosted || Allows(h, g, ran[k].name, ran[k].payload) {
      if k < |st.ran| {
        assert ran[k] == st.ran[k];
      } else {
        AllowsMeans(h, g, ran[k].name, ran[k].payload);
      }
    }
  }

  /** Only calls run anything or read the grants. */
  predicate SameRuns(a: State, b: State) { b.ran == a.ran && b.grants == a.grants && b.hosted == a.hosted }

  lemma EndRunsNothing(h: Host, st: State, ok: bool, output: Json, error: Json)
    ensures var (st', r) := EndSpan(h, st, ok, output, error);
            SameRuns(st, st') && (st.stack != [] ==> |st'.stack| == |st.stack| - 1)
  {
    hide CloseSpan;
    if st.stack != [] {
      var top, st1 := st.stack[|st.stack| - 1], st.(stack := st.stack[..|st.stack| - 1]);
      CloseRunsNothing(h, st1, top, ok, output, error);
      CloseRunsNothing(h, st1.(cursor := st1.cursor.Advance()), top, ok, output, error);
    }
  }

  lemma CloseRunsNothing(h: Host, st: State, top: Frame, ok: bool, output: Json, error: Json)
    ensures var st' := CloseSpan(h, st, top, ok, output, error).0; SameRuns(st, st') && |st'.stack| == |st.stack|
  {
    hide EndMeta;
  }

  lemma {:induction false} CloseAllRunsNothing(h: Host, st: State, cell: string)
    ensures SameRuns(st, CloseAll(h, st, cell).0)
    decreases |st.stack|
  {
    hide EndSpan;
    if st.stack != [] {
      EndRunsNothing(h, st, false, Null, UnclosedSpan(cell));
      var (st1, r) := EndSpan(h, st, false, Null, UnclosedSpan(cell));
      if !r.Failed? { CloseAllRunsNothing(h, st1, cell); }
    }
  }

  lemma OpenRunsNothing(h: Host, st: State, name: string, kind: Option<string>, input: Json)
    ensures SameRuns(st, OpenSpan(h, st, name, kind, input).0)
  {
    hide Decide, Take, Counted, BuildMock;
  }

  lemma BeginRunsNothing(h: Host, st: State, name: string, kind: Option<string>, input: Json)
    ensures SameRuns(st, BeginSpan(h, st, name, kind, input).0)
  {
    hide OpenSpan;
    var st1 := st.(spanN := st.spanN + 1);
    OpenRunsNothing(h, st1, name, kind, input);
    OpenRunsNothing(h, st1.(cursor := st1.cursor.Advance()), name, kind, input);
  }

  lemma OthersRunNothing(h: Host, st: State, op: Op)
    requires !op.Do?
    ensures SameRuns(st, Step(h, st, op).0)
  {
    hide BeginSpan, EndSpan, CloseAll, Call;
    match op
    case Begin(name, kind, input) => BeginRunsNothing(h, st, name, kind, input);
    case End(ok, output, error) => EndRunsNothing(h, st, ok, output, error);
    case CellDone(cell, ok, error, interrupted) => CloseAllRunsNothing(h, st, cell);
  }

  /** Over every run of a broker with grants, in every mode: an effect "http." + verb that
      ran is on a route whose class the grants allow, any other has a name they allow, at
      every nesting -- the host's own refreshes apart. */
  lemma {:induction false} OnlyAllowedRun(h: Host, g: GrantSet, st: State, ops: seq<Op>)
    requires Fresh(st) && st.grants == Some(g)
    ensures AllAllowed(h, g, StepAll(h, st, ops).ran)
    ensures StepAll(h, st, ops).grants == Some(g) && StepAll(h, st, ops).hosted == 0
  {
    hide Step, Allows;
    if ops != [] {
      OnlyAllowedRun(h, g, st, ops[..|ops| - 1]);
      var here, op := StepAll(h, st, ops[..|ops| - 1]), ops[|ops| - 1];
      if op.Do? {
        CallStaysAllowed(h, g, here, op.name, op.payload);
        CallStep(h, here, op);
      } else {
        OthersRunNothing(h, here, op);
      }
    }
  }

  lemma CallStep(h: Host, st: State, op: Op)
    requires op.Do?
    ensures Step(h, st, op).0 == Call(h, st, op.name, op.payload).0
  {
    hide Call;
  }

  // --- the refusal ---

  predicate SaysDenied(error: Option<Failure>) { error.Some? && error.value.kind == "capability_denied" }

  /** The last record since `st` is a refusal by the gate. */
  predicate EndsDenied(st: State, st': State) {
    |st'.log| > |st.log| && st'.log[|st'.log| - 1].Effect? && SaysDenied(st'.log[|st'.log| - 1].error)
  }

  /** A guest's call that the grants do not allow leaves one record, that says so, and
      nothing else: no index is asked, no checkpoint taken, nothing run. */
  lemma RefusedCallIsRecorded(h: Host, g: GrantSet, st: State, name: string, given: Json)
      returns (cap: string, r: Trace.Record)
    requires st.grants == Some(g) && st.hosted == 0 && Materialises(h, name, given)
    requires !Allows(h, g, name, Payload(h, name, given))
    ensures forall verb | name == "http." + verb :: cap == h.httpCap(verb, GetStr(Payload(h, name, given), "url"))
    ensures !("http." <= name) ==> cap == name
    ensures r.Effect? && r.name == name && r.input == Payload(h, name, given) && r.key == Key(name, r.input)
    ensures r.output == Null && !r.emeta.mocked && !r.emeta.hosted && r.span == TopId(st)
    ensures r.error == Some(Failure("capability_denied", "capability not granted: " + cap + " (effect " + name + ")"))
    ensures var (st', reply) := Call(h, st, name, given);
            && reply == Err(r.error.value) && st'.log == st.log + [r]
            && st'.ran == st.ran && st'.spanMocks == st.spanMocks && st'.mockIndex == st.mockIndex
            && st'.cursor == st.cursor
  {
    hide CallAdmitted, ReplayCall, Classify, WriteRefusal, CapOf, Allows;
    var payload := Payload(h, name, given);
    AllowsMeans(h, g, name, payload);
    cap := CapOf(h, name, payload);
    CapMeans(h, name, payload);
    r := Effect(name, st.cell, payload, Key(name, payload), Null, Some(Denial(cap, name)),
                EffectMeta(None, false, Classify(h, name, payload), false, None, Unmocked), TopId(st));
    RefusalWrites(st, name, payload, Classify(h, name, payload), Denial(cap, name), r);
  }

  lemma CapMeans(h: Host, name: string, payload: Json)
    ensures forall verb | name == "http." + verb :: CapOf(h, name, payload) == h.httpCap(verb, GetStr(payload, "url"))
    ensures !("http." <= name) ==> CapOf(h, name, payload) == name
  {
    forall verb | name == "http." + verb ensures "http." <= name && name[5..] == verb { VerbOf(name, verb); }
  }

  lemma RefusalWrites(st: State, name: string, payload: Json, cls: Class, f: Failure, r: Trace.Record)
    requires r == Effect(name, st.cell, payload, Key(name, payload), Null, Some(f),
                         EffectMeta(None, false, cls, false, None, Unmocked), TopId(st))
    ensures var st' := WriteRefusal(st, name, payload, cls, f, Unmocked);
            && st'.log == st.log + [r] && st'.ran == st.ran && st'.spanMocks == st.spanMocks
            && st'.mockIndex == st.mockIndex
            && st'.cursor == st.cursor
  {
    hide Bump;
    BumpKeepsDepth(st, cls);
  }

  /** No answer of the world, no mocked answer and no replayed record is such a refusal. */
  ghost predicate NothingForged(h: Host) {
    && (forall n, name, payload :: h.answer(n, name, payload).result.Err? ==>
          !Forged(h.answer(n, name, payload).result.error))
    && (forall payload :: h.blobRead(payload).Err? ==> !Forged(h.blobRead(payload).error))
  }

  predicate Forged(f: Failure) { f.kind == "capability_denied" }

  ghost predicate HonestIndex(idx: MockIndex) {
    forall name, k, slot | slot in Queue(idx, name, k) :: !SaysDenied(slot.rec.error)
  }

  ghost predicate HonestMocks(st: State) { ActiveMock(st).Some? ==> HonestIndex(ActiveMock(st).value) }

  ghost predicate HonestTrace(c: Cursor) { forall r | r in c.log && r.Effect? :: !SaysDenied(r.error) }

  lemma HonestTake(idx: MockIndex, d: Decision, name: string, key: Key)
    requires HonestIndex(idx)
    ensures HonestIndex(Counted(idx, d)) && HonestIndex(Take(Counted(idx, d), name, key).0)
    ensures Take(Counted(idx, d), name, key).1.Some? ==> !SaysDenied(Take(Counted(idx, d), name, key).1.value.rec.error)
  {
    hide Queue, Take, SaysDenied;
    forall name', k, slot | slot in Queue(Counted(idx, d), name', k) ensures !SaysDenied(slot.rec.error) {
      Reentry.TakesWhatIsThere(idx, d, name, key, name', k, slot);
    }
    forall name', k, slot | slot in Queue(Take(Counted(idx, d), name, key).0, name', k)
      ensures !SaysDenied(slot.rec.error)
    {
      Reentry.TakesWhatIsThere(idx, d, name, key, name', k, slot);
    }
    if Take(Counted(idx, d), name, key).1.Some? {
      Reentry.TakesWhatIsThere(idx, d, name, key, name, Wildcard, Take(Counted(idx, d), name, key).1.value);
    }
  }

  lemma HonestConsult(st: State, name: string, key: Key)
    requires HonestMocks(st)
    ensures var (st1, c) := ConsultMock(st, name, key);
            && HonestMocks(st1) && st1 == st.(spanMocks := st1.spanMocks, mockIndex := st1.mockIndex)
            && (c.Serve? ==> !SaysDenied(c.slot.rec.error))
  {
    hide Decide, Take, NeverMockable, Counted, HonestIndex, SaysDenied;
    if ActiveMock(st).Some? {
      HonestTake(ActiveMock(st).value, Decide(ActiveMock(st).value, name, Facades(st.stack)), name, key);
    }
  }

  lemma MocksStayHonest(a: State, b: State)
    requires HonestMocks(a) && b.spanMocks == a.spanMocks && b.mockIndex == a.mockIndex && b.mode == a.mode
    ensures HonestMocks(b)
  {
    assert ActiveMock(b) == ActiveMock(a);
  }

  lemma OtherKinds()
    ensures "mock_unmatched" != "capability_denied" && UNKNOWN != "capability_denied"
            && "host_only" != "capability_denied"
    ensures DIVERGENCE.kind != "capability_denied"
  {
    assert "mock_unmatched"[0] == 'm' && UNKNOWN[0] == 'u' && "host_only"[0] == 'h' && DIVERGENCE.kind[0] == 'D';
  }

  /** The outcome of a call is no refusal by the gate. */
  predicate NotRefused(r: Result<Json, Failure>) { r.Err? ==> !Forged(r.error) }

  lemma RefreshNotRefused(h: Host, st: State, payload: Json, cls: Class)
    requires NothingForged(h) && HonestMocks(st)
    ensures NotRefused(CallAdmitted(h, st, "oauth.refresh", payload, cls).1)
  {
    hide ConsultMock, Execute, NothingForged, HonestMocks;
    OtherKinds();
    HonestConsult(st, "oauth.refresh", Key("oauth.refresh", payload));
    var st1 := ConsultMock(st, "oauth.refresh", Key("oauth.refresh", payload)).0;
    ExecutedRefresh(h, Bump(st1, cls, false), payload);
  }

  lemma ExecutedRefresh(h: Host, st: State, payload: Json)
    requires NothingForged(h)
    ensures NotRefused(Execute(h, st, "oauth.refresh", payload).1)
  {
    OtherKinds();
    Reentry.RefreshIsItsOwn();
  }

  lemma HostedNotRefused(h: Host, st: State, provider: string)
    requires NothingForged(h) && HonestMocks(st) && st.hosted >= 0 && !st.mode.Replay?
    ensures NotRefused(CallHosted(h, st, provider).1)
  {
    hide Classify, CapOf, CallAdmitted, HonestMocks, NothingForged;
    Reentry.RefreshIsItsOwn();
    var inner := st.(hosted := st.hosted + 1);
    MocksStayHonest(st, inner);
    var payload := Obj([Field("provider", Str(provider))]);
    RefreshNotRefused(h, inner, payload, Classify(h, "oauth.refresh", payload));
    assert !IsDenied(h, inner, "oauth.refresh", payload);
    assert CallHosted(h, st, provider).1 == Call(h, inner, "oauth.refresh", payload).1;
  }

  lemma ExecutionNotRefused(h: Host, st: State, name: string, payload: Json)
    requires NothingForged(h) && HonestMocks(st) && st.hosted >= 0 && !st.mode.Replay?
    ensures NotRefused(Execute(h, st, name, payload).1)
  {
    hide CallHosted, Call, BatchItems, HonestMocks;
    OtherKinds();
    var st1 := LogRun(st, name, payload);
    MocksStayHonest(st, st1);
    if IsHttp(name) {
      var a := h.answer(|st.ran|, name, payload);
      if a.refresh.Some? { HostedNotRefused(h, st1, a.refresh.value); }
    }
  }

  lemma AdmittedNotDenied(h: Host, st: State, name: string, payload: Json, cls: Class)
    requires NothingForged(h) && HonestMocks(st) && st.hosted >= 0 && !st.mode.Replay?
    ensures !EndsDenied(st, CallAdmitted(h, st, name, payload, cls).0)
  {
    hide ConsultMock, Execute, HonestMocks, NothingForged, Bump;
    OtherKinds();
    var (st1, c) := ConsultMock(st, name, Key(name, payload));
    HonestConsult(st, name, Key(name, payload));
    var up := Bump(st1, cls, false);
    BumpKeepsDepth(st1, cls);
    MocksStayHonest(st1, up);
    ExecutionNotRefused(h, up, name, payload);
  }

  lemma {:induction false} DrainNotDenied(h: Host, st: State, name: string, key: Key, from: State)
    requires HonestTrace(st.cursor) && |from.log| <= |st.log| && !EndsDenied(from, st)
    ensures var st' := Drain(h, st, name, key);
            !EndsDenied(from, st') && st'.cursor.log == st.cursor.log && |from.log| <= |st'.log|
    decreases |st.cursor.log| - st.cursor.pos
  {
    if st.cursor.HostedMismatch(name, key) {
      var r := st.cursor.log[st.cursor.pos];
      assert r in st.cursor.log;
      DrainNotDenied(h, WriteThrough(st, r.name, r.input, r.key, Classify(h, r.name, r.input)), name, key, from);
    }
  }

  lemma ReplayNotDenied(h: Host, st: State, name: string, payload: Json)
    requires HonestTrace(st.cursor)
    ensures !EndsDenied(st, ReplayCall(h, st, name, payload).0)
  {
    hide Drain, Classify, Bump;
    DrainNotDenied(h, st, name, Key(name, payload), st);
    var st1 := Drain(h, st, name, Key(name, payload));
    if st1.cursor.AtEffect(name, Key(name, payload)) {
      assert st1.cursor.log[st1.cursor.pos] in st1.cursor.log;
      BumpKeepsDepth(st1.(cursor := st1.cursor.Advance()), Classify(h, name, payload));
    }
  }

  /** In every mode: a guest's call ends in a record of a refusal if and only if the grants
      do not allow it, where nothing else forges such a refusal. */
  lemma DeniedExactly(h: Host, g: GrantSet, st: State, name: string, given: Json)
    requires st.grants == Some(g) && st.hosted == 0 && Materialises(h, name, given)
    requires NothingForged(h) && HonestMocks(st) && HonestTrace(st.cursor)
    ensures EndsDenied(st, Call(h, st, name, given).0) <==> !Allows(h, g, name, Payload(h, name, given))
  {
    hide CallAdmitted, ReplayCall, Allows, Classify, NothingForged, HonestMocks, HonestTrace, CapOf, WriteRefusal;
    var payload := Payload(h, name, given);
    AllowsMeans(h, g, name, payload);
    if !Allows(h, g, name, payload) {
      var cap, r := RefusedCallIsRecorded(h, g, st, name, given);
    } else if st.mode.Replay? {
      ReplayNotDenied(h, st, name, payload);
    } else {
      AdmittedNotDenied(h, st, name, payload, Classify(h, name, payload));
    }
  }

  // --- the class ---

  /** An http call mutates by its route, any other effect by its name. */
  ghost predicate ClassTold(h: Host, r: Trace.Record) {
    r.Effect? ==>
      && (forall verb | r.name == "http." + verb ::
            r.emeta.cls.Mutate? <==> h.httpMutates(verb, GetStr(r.input, "url")))
      && (!("http." <= r.name) ==>
            (r.emeta.cls.Mutate? <==>
             r.name in {"oauth.connect", "oauth.disconnect", "oauth.refresh", "config.set", "bao.status"}))
  }

  ghost predicate ClassesTold(h: Host, log: seq<Trace.Record>) { forall r | r in log :: ClassTold(h, r) }

  lemma ClassIsTold(h: Host, r: Trace.Record)
    requires r.Effect? && r.emeta.cls == Classify(h, r.name, r.input)
    ensures ClassTold(h, r)
  {
    forall verb | r.name == "http." + verb ensures "http." <= r.name && r.name[5..] == verb { VerbOf(r.name, verb); }
  }

  lemma ClassesAppend(h: Host, log: seq<Trace.Record>, r: Trace.Record)
    requires ClassesTold(h, log) && ClassTold(h, r)
    ensures ClassesTold(h, log + [r])
  {
    hide ClassTold;
  }

  lemma RefusalTold(h: Host, st: State, name: string, payload: Json, f: Failure, mark: MockMark)
    requires ClassesTold(h, st.log)
    ensures ClassesTold(h, WriteRefusal(st, name, payload, Classify(h, name, payload), f, mark).log)
  {
    hide Classify, ClassTold, ClassesTold;
    var r := WriteRefusal(st, name, payload, Classify(h, name, payload), f, mark).log[|st.log|];
    ClassIsTold(h, r);
    ClassesAppend(h, st.log, r);
  }

  lemma WrittenTold(h: Host, st: State, name: string, payload: Json, rec: Outcome, meta: EffectMeta)
    requires ClassesTold(h, st.log) && meta.cls == Classify(h, name, payload)
    ensures ClassesTold(h, WriteMocked(st, name, payload, Key(name, payload), rec, meta).log)
    ensures forall key :: ClassesTold(h, WriteMocked(st, name, payload, key, rec, meta).log)
  {
    hide Classify, ClassTold, ClassesTold;
    forall key ensures ClassesTold(h, WriteMocked(st, name, payload, key, rec, meta).log) {
      var r := WriteMocked(st, name, payload, key, rec, meta).log[|st.log|];
      ClassIsTold(h, r);
      ClassesAppend(h, st.log, r);
    }
  }

  lemma LiveTold(h: Host, st: State, name: string, payload: Json, unmatched: bool, reply: Result<Json, Failure>)
    requires ClassesTold(h, st.log)
    ensures ClassesTold(h, WriteLive(h, st, name, payload, Classify(h, name, payload), unmatched, reply).log)
  {
    hide Classify, ClassTold, ClassesTold;
    var r := WriteLive(h, st, name, payload, Classify(h, name, payload), unmatched, reply).log[|st.log|];
    ClassIsTold(h, r);
    ClassesAppend(h, st.log, r);
  }

  lemma ThroughTold(h: Host, st: State, name: string, payload: Json, key: Key)
    requires ClassesTold(h, st.log) && st.cursor.AtRecord() && st.cursor.log[st.cursor.pos].Effect?
    ensures ClassesTold(h, WriteThrough(st, name, payload, key, Classify(h, name, payload)).log)
  {
    hide Classify, ClassesTold, Bump;
    var cls, rec := Classify(h, name, payload), st.cursor.log[st.cursor.pos];
    var next := st.(cursor := st.cursor.Advance());
    BumpKeepsDepth(next, cls);
    WrittenTold(h, Bump(next, cls, false), name, payload, Outcome(rec.output, rec.error, None),
                Restamp(rec.emeta, cls));
  }

  lemma {:induction false} DrainTold(h: Host, st: State, name: string, key: Key)
    requires ClassesTold(h, st.log)
    ensures ClassesTold(h, Drain(h, st, name, key).log)
    decreases |st.cursor.log| - st.cursor.pos
  {
    hide ClassesTold, Classify;
    if st.cursor.HostedMismatch(name, key) {
      var r := st.cursor.log[st.cursor.pos];
      ThroughTold(h, st, r.name, r.input, r.key);
      DrainTold(h, WriteThrough(st, r.name, r.input, r.key, Classify(h, r.name, r.input)), name, key);
    }
  }

  lemma ReplayTold(h: Host, st: State, name: string, payload: Json)
    requires ClassesTold(h, st.log)
    ensures ClassesTold(h, ReplayCall(h, st, name, payload).0.log)
  {
    hide ClassesTold, Classify, Drain, WriteThrough;
    DrainTold(h, st, name, Key(name, payload));
    var st1 := Drain(h, st, name, Key(name, payload));
    if st1.cursor.AtEffect(name, Key(name, payload)) { ThroughTold(h, st1, name, payload, Key(name, payload)); }
  }

  lemma {:induction false} CallTold(h: Host, st: State, name: string, given: Json)
    requires ClassesTold(h, st.log)
    ensures ClassesTold(h, Call(h, st, name, given).0.log)
    decreases Rank(name, given), 3
  {
    hide ClassesTold, CallAdmitted, ReplayCall, WriteRefusal, Classify, IsDenied;
    var m := if name == "blob.put" then h.materialize(given) else Ok(given);
    if m.Ok? {
      if IsDenied(h, st, name, m.value) {
        RefusalTold(h, st, name, m.value, Denial(CapOf(h, name, m.value), name), Unmocked);
      } else if st.mode.Replay? {
        ReplayTold(h, st, name, m.value);
      } else {
        AdmittedTold(h, st, name, m.value);
      }
    }
  }

  lemma {:induction false} AdmittedTold(h: Host, st: State, name: string, payload: Json)
    requires ClassesTold(h, st.log)
    ensures ClassesTold(h, CallAdmitted(h, st, name, payload, Classify(h, name, payload)).0.log)
    decreases Rank(name, payload), 2
  {
    hide ClassesTold, ConsultMock, Execute, WriteRefusal, WriteMocked, WriteLive, Bump, Classify;
    var cls := Classify(h, name, payload);
    var (st1, c) := ConsultMock(st, name, Key(name, payload));
    ConsultKeepsDepth(st, name, Key(name, payload));
    BumpKeepsLog(st1, cls, true);
    BumpKeepsLog(st1, cls, false);
    match c {
      case Serve(slot) =>
        WrittenTold(h, Bump(st1, cls, true), name, payload, slot.rec,
                    EffectMeta(None, true, cls, false, None, ServedFrom(slot.provenance)));
      case Miss(Fail) =>
        RefusalTold(h, st1, name, payload, NoMock(name), Unmatched);
      case _ =>
        ExecuteTold(h, Bump(st1, cls, false), name, payload);
        var (st2, r) := Execute(h, Bump(st1, cls, false), name, payload);
        LiveTold(h, st2, name, payload, c.Miss?, r);
    }
  }

  lemma BumpKeepsLog(st: State, cls: Class, mocked: bool)
    ensures Bump(st, cls, mocked).log == st.log
  {
  }

  lemma {:induction false} ExecuteTold(h: Host, st: State, name: string, payload: Json)
    requires ClassesTold(h, st.log)
    ensures ClassesTold(h, Execute(h, st, name, payload).0.log)
    decreases Rank(name, payload), 0
  {
    hide ClassesTold, Call, Batch;
    var st1 := LogRun(st, name, payload);
    if IsHttp(name) {
      var a := h.answer(|st.ran|, name, payload);
      if a.refresh.Some? {
        assert "oauth.refresh"[0] != "http."[0];
        CallTold(h, st1.(hosted := st1.hosted + 1), "oauth.refresh", Obj([Field("provider", Str(a.refresh.value))]));
      }
    } else if name == "batch" {
      BatchTold(h, st1, payload);
    }
  }

  lemma {:induction false} BatchTold(h: Host, st: State, payload: Json)
    requires ClassesTold(h, st.log)
    ensures ClassesTold(h, Batch(h, st, payload).0.log)
    decreases 1 + Size(payload), 5
  {
    hide ClassesTold, Call, BatchItems;
    var name, items := GetStr(payload, "name"), GetArr(payload, "payloads");
    if items != [] {
      CallTold(h, st, name, items[0]);
      ItemsTold(h, Call(h, st, name, items[0]).0, name, items[1..]);
    }
  }

  lemma {:induction false} ItemsTold(h: Host, st: State, name: string, items: seq<Json>)
    requires ClassesTold(h, st.log)
    ensures ClassesTold(h, BatchItems(h, st, name, items).0.log)
    decreases 2 + SizeItems(items), 4
  {
    hide ClassesTold, Call;
    if items != [] {
      CallTold(h, st, name, items[0]);
      ItemsTold(h, Call(h, st, name, items[0]).0, name, items[1..]);
    }
  }

  lemma SpanTold(h: Host, log: seq<Trace.Record>, r: Trace.Record)
    requires ClassesTold(h, log) && !r.Effect?
    ensures ClassesTold(h, log + [r])
  {
    ClassesAppend(h, log, r);
  }

  lemma OpenTold(h: Host, st: State, name: string, kind: Option<string>, input: Json)
    requires ClassesTold(h, st.log)
    ensures ClassesTold(h, OpenSpan(h, st, name, kind, input).0.log)
  {
    hide ClassesTold, BuildMock, Decide, Take, Counted;
    SpanTold(h, st.log, SpanBegin(st.spanN, name, st.cell, input, Key(name, input), TopId(st)));
  }

  lemma EndTold(h: Host, st: State, ok: bool, output: Json, error: Json)
    requires ClassesTold(h, st.log)
    ensures ClassesTold(h, EndSpan(h, st, ok, output, error).0.log)
  {
    hide ClassesTold, CloseSpan;
    if st.stack != [] {
      var top, st1 := st.stack[|st.stack| - 1], st.(stack := st.stack[..|st.stack| - 1]);
      CloseTold(h, st1, top, ok, output, error);
      CloseTold(h, st1.(cursor := st1.cursor.Advance()), top, ok, output, error);
    }
  }

  lemma CloseTold(h: Host, st: State, top: Frame, ok: bool, output: Json, error: Json)
    requires ClassesTold(h, st.log)
    ensures ClassesTold(h, CloseSpan(h, st, top, ok, output, error).0.log)
  {
    hide ClassesTold, EndMeta;
    SpanTold(h, st.log, SpanEnd(top.id, top.name, st.cell, ok, output, error, EndMeta(h, st, top)));
  }

  lemma {:induction false} CloseAllTold(h: Host, st: State, cell: string)
    requires ClassesTold(h, st.log)
    ensures ClassesTold(h, CloseAll(h, st, cell).0.log)
    decreases |st.stack|
  {
    hide ClassesTold, EndSpan;
    if st.stack != [] {
      EndTold(h, st, false, Null, UnclosedSpan(cell));
      EndRunsNothing(h, st, false, Null, UnclosedSpan(cell));
      var (st1, r) := EndSpan(h, st, false, Null, UnclosedSpan(cell));
      if !r.Failed? { CloseAllTold(h, st1, cell); }
    }
  }

  lemma StepTold(h: Host, st: State, op: Op)
    requires ClassesTold(h, st.log)
    ensures ClassesTold(h, Step(h, st, op).0.log)
  {
    hide ClassesTold, Call, OpenSpan, EndSpan, CloseAll;
    match op
    case Begin(name, kind, input) =>
      var st1 := st.(spanN := st.spanN + 1);
      OpenTold(h, st1, name, kind, input);
      OpenTold(h, st1.(cursor := st1.cursor.Advance()), name, kind, input);
    case End(ok, output, error) => EndTold(h, st, ok, output, error);
    case Do(name, payload) => CallTold(h, st, name, payload);
    case CellDone(cell, ok, error, interrupted) =>
      CloseAllTold(h, st, cell);
      SpanTold(h, CloseAll(h, st, cell).0.log, Cell(cell, ok, error, interrupted));
  }

  /** Every effect record of every run, in every mode and at every nesting, says of what
      class its own name and input are. */
  lemma {:induction false} RecordsTellTheClass(h: Host, st: State, ops: seq<Op>)
    requires Fresh(st)
    ensures ClassesTold(h, StepAll(h, st, ops).log)
  {
    hide Step, ClassTold;
    if ops != [] {
      RecordsTellTheClass(h, st, ops[..|ops| - 1]);
      StepTold(h, StepAll(h, st, ops[..|ops| - 1]), ops[|ops| - 1]);
    }
  }
}
