/** A facade inside a mocked span, recorded and replayed: which entry of its queue each side
    comes to, and when the two are the same. */
module Facades {
  import opened Options
  import opened Json
  import opened Trace
  import opened Mocks
  import opened MockSpecs
  import opened Pipeline
  import opened Stretch
  import opened Accounting
  import opened MockScopes
  import opened Shadows
  import opened Replaying
  import opened ReplayRuns
  import opened ReplayCounts

  // --- what a call takes, its records tell ---

  /** The record of an effect answered from the queue of that name and key, or the name's
      wildcard. */
  predicate Says(r: Trace.Record, name: string, k: MockKey) {
    r.Effect? && r.emeta.mocked && r.name == name && (k.Wildcard? || k == Exact(r.key))
  }

  function LastQueue(m: seq<MockIndex>, name: string, k: MockKey): seq<Slot> {
    if m == [] then [] else Queue(m[|m| - 1], name, k)
  }

  /** A queue of the innermost index is as it was, or a record says that it gave an answer. */
  ghost predicate Tells(st: State, st': State) {
    && st.log <= st'.log && |st'.spanMocks| == |st.spanMocks|
    && forall name, k ::
         || LastQueue(st'.spanMocks, name, k) == LastQueue(st.spanMocks, name, k)
         || exists r | r in st'.log[|st.log|..] :: Says(r, name, k)
  }

  lemma TellsChains(a: State, b: State, c: State)
    requires Tells(a, b) && Tells(b, c)
    ensures Tells(a, c)
  {
    hide LastQueue, Says;
    Tails(a.log, b.log, c.log);
    forall name, k | LastQueue(c.spanMocks, name, k) != LastQueue(a.spanMocks, name, k)
      ensures exists r | r in c.log[|a.log|..] :: Says(r, name, k)
    {
      if LastQueue(b.spanMocks, name, k) != LastQueue(a.spanMocks, name, k) {
        var r :| r in b.log[|a.log|..] && Says(r, name, k);
        assert r in c.log[|a.log|..];
      } else {
        var r :| r in c.log[|b.log|..] && Says(r, name, k);
        assert r in c.log[|a.log|..];
      }
    }
  }

  lemma NothingTaken(st: State, st': State)
    requires st.log <= st'.log && st'.spanMocks == st.spanMocks
    ensures Tells(st, st')
  {
  }

  /** A consult takes from a queue of its own name, and only if it is answered. */
  lemma ConsultTakes(st: State, name: string, key: Key, name': string, k: MockKey)
    ensures var (st1, c) := ConsultMock(st, name, key);
            && |st1.spanMocks| == |st.spanMocks| && st1.log == st.log
            && (LastQueue(st1.spanMocks, name', k) == LastQueue(st.spanMocks, name', k)
                || (c.Serve? && name' == name && (k.Wildcard? || k == Exact(key))))
  {
    hide Decide, NeverMockable;
    if ActiveMock(st).Some? {
      var idx := ActiveMock(st).value;
      var d := Decide(idx, name, Facades(st.stack));
      TakePolicy(idx, d, name, key);
      TakeTouchesOneQueue(Counted(idx, d), name, key, (name', k));
    }
  }

  lemma ServedTells(st: State, st1: State, c: Consult, name: string, payload: Json, cls: Class, meta: EffectMeta)
    requires ConsultMock(st, name, Key(name, payload)) == (st1, c) && c.Serve? && meta.mocked
    ensures Tells(st, WriteMocked(Bump(st1, cls, true), name, payload, Key(name, payload), c.slot.rec, meta))
  {
    hide ConsultMock, LastQueue;
    var key := Key(name, payload);
    var end := WriteMocked(Bump(st1, cls, true), name, payload, key, c.slot.rec, meta);
    ConsultTakes(st, name, key, name, Wildcard);
    assert end.spanMocks == st1.spanMocks && end.log == st.log + [end.log[|st.log|]];
    assert end.log[|st.log|] in end.log[|st.log|..];
    forall name', k | LastQueue(end.spanMocks, name', k) != LastQueue(st.spanMocks, name', k)
      ensures exists r | r in end.log[|st.log|..] :: Says(r, name', k)
    {
      ConsultTakes(st, name, key, name', k);
      assert Says(end.log[|st.log|], name', k);
    }
  }

  lemma UnansweredTells(st: State, st1: State, c: Consult, name: string, key: Key)
    requires ConsultMock(st, name, key) == (st1, c) && !c.Serve?
    ensures Tells(st, st1)
  {
    hide ConsultMock, LastQueue;
    ConsultTakes(st, name, key, name, Wildcard);
    forall name', k ensures LastQueue(st1.spanMocks, name', k) == LastQueue(st.spanMocks, name', k) {
      ConsultTakes(st, name, key, name', k);
    }
  }

  /** Through every nesting of batch and host-emitted calls. */
  lemma {:induction false} CallTells(h: Host, st: State, name: string, given: Json)
    requires !st.mode.Replay?
    ensures Tells(st, Call(h, st, name, given).0)
    decreases Rank(name, given), 3
  {
    hide Tells, CallAdmitted, WriteRefusal, Classify;
    var m := if name == "blob.put" then h.materialize(given) else Ok(given);
    NothingTaken(st, st);
    if m.Ok? {
      var cls := Classify(h, name, m.value);
      if IsDenied(h, st, name, m.value) {
        RefusalTells(st, name, m.value, cls, Denial(CapOf(h, name, m.value), name), Unmocked);
      } else {
        AdmittedTells(h, st, name, m.value, cls);
      }
    }
  }

  lemma RefusalTells(st: State, name: string, payload: Json, cls: Class, f: Failure, mark: MockMark)
    ensures Tells(st, WriteRefusal(st, name, payload, cls, f, mark))
  {
    NothingTaken(st, WriteRefusal(st, name, payload, cls, f, mark));
  }

  lemma {:induction false} AdmittedTells(h: Host, st: State, name: string, payload: Json, cls: Class)
    requires !st.mode.Replay?
    ensures Tells(st, CallAdmitted(h, st, name, payload, cls).0)
    decreases Rank(name, payload), 2
  {
    hide Tells, ConsultMock, CallLive, WriteRefusal, WriteMocked, Bump;
    var key := Key(name, payload);
    var (st1, c) := ConsultMock(st, name, key);
    ConsultKeeps(st, name, key);
    match c {
      case Serve(slot) =>
        ServedTells(st, st1, c, name, payload, cls, EffectMeta(None, true, cls, false, None,
            ServedFrom(slot.provenance)));
      case Miss(Fail) =>
        UnansweredTells(st, st1, c, name, key);
        RefusalTells(st1, name, payload, cls, NoMock(name), Unmatched);
        TellsChains(st, st1, CallAdmitted(h, st, name, payload, cls).0);
      case _ =>
        UnansweredTells(st, st1, c, name, key);
        LiveTells(h, st1, name, payload, cls, c.Miss?);
        TellsChains(st, st1, CallAdmitted(h, st, name, payload, cls).0);
    }
  }

  lemma {:induction false} LiveTells(h: Host, st: State, name: string, payload: Json, cls: Class, unmatched: bool)
    requires !st.mode.Replay?
    ensures Tells(st, CallLive(h, st, name, payload, cls, unmatched).0)
    decreases Rank(name, payload), 1
  {
    hide Tells, Execute;
    var up := Bump(st, cls, false);
    var (st2, r) := Execute(h, up, name, payload);
    NothingTaken(st, up);
    ExecuteTells(h, up, name, payload);
    var end := WriteLive(h, st2, name, payload, cls, unmatched, r);
    NothingTaken(st2, end);
    TellsChains(st, up, st2);
    TellsChains(st, st2, end);
  }

  lemma {:induction false} ExecuteTells(h: Host, st: State, name: string, payload: Json)
    requires !st.mode.Replay?
    ensures Tells(st, Execute(h, st, name, payload).0)
    decreases Rank(name, payload), 0
  {
    hide Tells, Call, Batch;
    var st1 := LogRun(st, name, payload);
    NothingTaken(st, st1);
    if IsHttp(name) {
      var a := h.answer(|st.ran|, name, payload);
      if a.refresh.Some? {
        assert "oauth.refresh"[0] != "http."[0];
        var inner := st1.(hosted := st1.hosted + 1);
        var refresh := Obj([Field("provider", Str(a.refresh.value))]);
        CallTells(h, inner, "oauth.refresh", refresh);
        var end := Call(h, inner, "oauth.refresh", refresh).0;
        NothingTaken(st, inner);
        NothingTaken(end, end.(hosted := end.hosted - 1));
        TellsChains(st, inner, end);
        TellsChains(st, end, end.(hosted := end.hosted - 1));
      }
    } else if name == "batch" {
      BatchTells(h, st1, payload);
      TellsChains(st, st1, Batch(h, st1, payload).0);
    }
  }

  lemma {:induction false} BatchTells(h: Host, st: State, payload: Json)
    requires !st.mode.Replay?
    ensures Tells(st, Batch(h, st, payload).0)
    decreases 1 + Size(payload), 5
  {
    hide Tells, Call, BatchItems;
    NothingTaken(st, st);
    var name, items := GetStr(payload, "name"), GetArr(payload, "payloads");
    if items != [] {
      CallTells(h, st, name, items[0]);
      CallIsStretch(h, st, name, items[0]);
      var st1 := Call(h, st, name, items[0]).0;
      ItemsTell(h, st1, name, items[1..]);
      TellsChains(st, st1, BatchItems(h, st1, name, items[1..]).0);
    }
  }

  lemma {:induction false} ItemsTell(h: Host, st: State, name: string, items: seq<Json>)
    requires !st.mode.Replay?
    ensures Tells(st, BatchItems(h, st, name, items).0)
    decreases 2 + SizeItems(items), 4
  {
    hide Tells, Call;
    NothingTaken(st, st);
    if items != [] {
      CallTells(h, st, name, items[0]);
      CallIsStretch(h, st, name, items[0]);
      var st1 := Call(h, st, name, items[0]).0;
      ItemsTell(h, st1, name, items[1..]);
      TellsChains(st, st1, BatchItems(h, st1, name, items[1..]).0);
    }
  }

  // --- positions ---

  /** How many answers a queue has given. */
  function Drawn(built: MockIndex, idx: MockIndex, name: string, k: MockKey): nat {
    if |Queue(idx, name, k)| <= |Queue(built, name, k)| then |Queue(built, name, k)| - |Queue(idx, name, k)| else 0
  }

  /** The answer at those places of the queues as built: the exact key's, else the wildcard's. */
  function AnswerAt(built: MockIndex, name: string, key: Key, exact: nat, wild: nat): Option<Slot> {
    var e, w := Queue(built, name, Exact(key)), Queue(built, name, Wildcard);
    if exact < |e| then Some(e[exact]) else if wild < |w| then Some(w[wild]) else None
  }

  function Next(built: MockIndex, idx: MockIndex, name: string, key: Key): Option<Slot> {
    AnswerAt(built, name, key, Drawn(built, idx, name, Exact(key)), Drawn(built, idx, name, Wildcard))
  }

  lemma TakesNext(built: MockIndex, idx: MockIndex, name: string, key: Key)
    requires OnlyDrawn(built, idx)
    ensures Take(idx, name, key).1 == Next(built, idx, name, key)
  {
    assert Suffix(Queue(built, name, Exact(key)), Queue(idx, name, Exact(key)));
    assert Suffix(Queue(built, name, Wildcard), Queue(idx, name, Wildcard));
  }

  /** The index as built and as it is now. */
  ghost predicate Since(built: MockIndex, idx: MockIndex) { SamePolicy(built, idx) && OnlyDrawn(built, idx) }

  lemma SlotIsNext(built: MockIndex, m: seq<MockIndex>, stack: seq<Frame>, name: string, key: Key)
    requires m != [] && Since(built, m[|m| - 1])
    ensures SlotFor(m, stack, name, key) ==
            if NeverSubstituted(name) || !Decide(built, name, Facades(stack)).IsMockable() then None
            else Next(built, m[|m| - 1], name, key)
  {
    hide Take, Next, Decide, Queue;
    var idx := m[|m| - 1];
    SameDecision(built, idx, name, Facades(stack));
    var d := Decide(idx, name, Facades(stack));
    TakePolicy(idx, d, name, key);
    NothingDrawn(idx, Counted(idx, d));
    DrawnChains(built, idx, Counted(idx, d));
    TakesNext(built, Counted(idx, d), name, key);
    assert Next(built, Counted(idx, d), name, key) == Next(built, idx, name, key) by { SameQueuesSameNext(built, idx,
        Counted(idx, d), name, key); }
  }

  lemma SameQueuesSameNext(built: MockIndex, a: MockIndex, b: MockIndex, name: string, key: Key)
    requires b.queues == a.queues
    ensures Next(built, b, name, key) == Next(built, a, name, key)
  {
  }

  /** Both sides come to the same answer. */
  ghost predicate SameAnswer(built: MockIndex, mine: MockIndex, later: MockIndex, theirs: MockIndex,
                             facades: seq<string>,
                       name: string, key: Key) {
    || NeverSubstituted(name) || !Decide(built, name, facades).IsMockable()
    || ServedAs(Next(later, theirs, name, key)) == ServedAs(Next(built, mine, name, key))
  }

  lemma FaithfulByAnswer(h: Host, st: State, s: Shadow, name: string, input: Json, built: MockIndex, later: MockIndex)
    requires MockSpecOf(input).None? && |s.mocks| == |st.spanMocks| && st.spanMocks != []
    requires Since(built, st.spanMocks[|st.spanMocks| - 1]) && Since(later, s.mocks[|s.mocks| - 1])
    requires SamePolicy(built, later)
    ensures FaithfulBegin(h, st, s, name, input) <==>
            SameAnswer(built, st.spanMocks[|st.spanMocks| - 1], later, s.mocks[|s.mocks| - 1], Facades(st.stack), name,
                       Key(name, input))
  {
    hide SlotFor, Next, Decide, Since;
    SlotIsNext(built, st.spanMocks, st.stack, name, Key(name, input));
    SlotIsNext(later, s.mocks, st.stack, name, Key(name, input));
    SameDecision(built, later, name, Facades(st.stack));
  }

  // --- along a run ---

  ghost predicate DrawnKept(a: seq<MockIndex>, b: seq<MockIndex>) {
    forall p | 0 <= p < |a| && p < |b| :: Since(a[p], b[p])
  }

  lemma SinceItself(idx: MockIndex)
    ensures Since(idx, idx)
  {
    NothingDrawn(idx, idx);
  }

  lemma SinceChains(a: MockIndex, b: MockIndex, c: MockIndex)
    requires Since(a, b) && Since(b, c)
    ensures Since(a, c)
  {
    DrawnChains(a, b, c);
  }

  lemma PrefixKept(a: seq<MockIndex>, b: seq<MockIndex>)
    requires b <= a || a <= b
    ensures DrawnKept(a, b)
  {
    hide Since;
    forall p | 0 <= p < |a| && p < |b| ensures Since(a[p], b[p]) { SinceItself(a[p]); }
  }

  lemma UsedKept(a: seq<MockIndex>, b: seq<MockIndex>)
    requires OnlyLastUsed(a, b)
    ensures DrawnKept(a, b)
  {
    hide OnlyDrawn;
    forall p | 0 <= p < |a| && p < |b| ensures Since(a[p], b[p]) {
      if p < |a| - 1 { SinceItself(a[p]); }
    }
  }

  lemma ConsultedKept(m: seq<MockIndex>, stack: seq<Frame>, name: string, key: Key)
    ensures DrawnKept(m, Consulted(m, stack, name, key)) && |Consulted(m, stack, name, key)| == |m|
  {
    hide OnlyDrawn, Take, Decide, Counted;
    PrefixKept(m, m);
    if !NeverSubstituted(name) && m != [] {
      var idx := m[|m| - 1];
      TakeKeepsPolicy(idx, Decide(idx, name, Facades(stack)), name, key);
    }
  }

  /** Every index that stays has only given answers. */
  lemma StepDraws(h: Host, st: State, op: Op)
    requires !st.mode.Replay?
    ensures DrawnKept(st.spanMocks, Step(h, st, op).0.spanMocks)
  {
    hide Call, BeginSpan, EndMeta, CloseAll, Consulted, SlotFor, DrawnKept, OnlyLastUsed, BuildMock;
    PrefixKept(st.spanMocks, st.spanMocks);
    match op
    case Begin(name, kind, input) =>
      if MockSpecOf(input).None? {
        FacadeBeginIs(h, st, name, kind, input);
        ConsultedKept(st.spanMocks, st.stack, name, Key(name, input));
      } else if BuildMock(h, MockSpecOf(input).value, st.log).Ok? {
        SpecBeginIs(h, st, name, kind, input, BuildMock(h, MockSpecOf(input).value, st.log).value);
        PrefixKept(st.spanMocks, Step(h, st, op).0.spanMocks);
      } else {
        BadBeginKeeps(h, st, name, kind, input);
      }
    case End(ok, output, error) => PrefixKept(st.spanMocks, Step(h, st, op).0.spanMocks);
    case Do(name, payload) => CallIsStretch(h, st, name, payload); UsedKept(st.spanMocks, Step(h, st, op).0.spanMocks);
    case CellDone(cell, ok, error, interrupted) =>
      CloseAllPops(h, st, cell);
      PrefixKept(st.spanMocks, Step(h, st, op).0.spanMocks);
  }

  lemma BadBeginKeeps(h: Host, st: State, name: string, kind: Option<string>, input: Json)
    requires !st.mode.Replay? && MockSpecOf(input).Some? && BuildMock(h, MockSpecOf(input).value, st.log).Err?
    ensures BeginSpan(h, st, name, kind, input).0 == st.(spanN := st.spanN + 1)
  {
  }

  lemma ShadeDraws(h: Host, log: seq<Trace.Record>, st: State, s: Shadow, op: Op)
    ensures DrawnKept(s.mocks, Shade(h, log, st, s, op).mocks)
  {
    hide DrawnKept, Consulted, BuildMock, Reload, Answered, FilterHit;
    if op.Begin? && MockSpecOf(op.input).None? {
      ConsultedKept(s.mocks, st.stack, op.name, Key(op.name, op.input));
    } else {
      PrefixKept(s.mocks, Shade(h, log, st, s, op).mocks);
    }
  }

  /** The shadow has an index for each of the recording's. */
  lemma ShadeHeight(h: Host, log: seq<Trace.Record>, st: State, s: Shadow, op: Op)
    requires Coherent(st) && !st.mode.Replay? && |s.mocks| == |st.spanMocks|
    ensures |Shade(h, log, st, s, op).mocks| == |Step(h, st, op).0.spanMocks|
  {
    hide Call, BeginSpan, EndMeta, CloseAll, Consulted, SlotFor, BuildMock, Reload, Answered, FilterHit, OnlyDrawn,
         Behind;
    match op
    case Begin(name, kind, input) =>
      if MockSpecOf(input).None? {
        FacadeBeginIs(h, st, name, kind, input);
        ConsultedKept(st.spanMocks, st.stack, name, Key(name, input));
        ConsultedKept(s.mocks, st.stack, name, Key(name, input));
      } else {
        ReloadsAlike(h, log, MockSpecOf(input).value, st.log);
        if BuildMock(h, MockSpecOf(input).value, st.log).Ok? {
          SpecBeginIs(h, st, name, kind, input, BuildMock(h, MockSpecOf(input).value, st.log).value);
        } else {
          BadBeginKeeps(h, st, name, kind, input);
        }
      }
    case End(ok, output, error) =>
    case Do(name, payload) => CallIsStretch(h, st, name, payload);
    case CellDone(cell, ok, error, interrupted) => StepKeepsCoherent(h, st, op);
  }

  lemma {:induction false} GoIsCoherent(h: Host, st: State, g: Guest, n: nat, log: seq<Trace.Record>)
    requires Fresh(st) && !st.mode.Replay?
    ensures Coherent(Go(h, st, g, n).st) && !Go(h, st, g, n).st.mode.Replay?
    ensures |Track(h, log, st, g, n).mocks| == |Go(h, st, g, n).st.spanMocks|
  {
    hide Step, Coherent, Shade;
    if n == 0 {
      FreshIsCoherent(st);
    } else {
      GoIsCoherent(h, st, g, n - 1, log);
      var here, op := Go(h, st, g, n - 1).st, OpAt(h, st, g, n - 1);
      StepKeepsCoherent(h, here, op);
      StepGrows(h, here, op);
      ShadeHeight(h, log, here, Track(h, log, st, g, n - 1), op);
    }
  }

  lemma FreshIsCoherent(st: State)
    requires Fresh(st)
    ensures Coherent(st)
  {
  }

  /** The operation begins a span with an index of its own: built now, and in a replay. */
  ghost predicate Installs(h: Host, log: seq<Trace.Record>, st: State, op: Op, built: MockIndex, later: MockIndex) {
    && op.Begin? && MockSpecOf(op.input).Some?
    && BuildMock(h, MockSpecOf(op.input).value, st.log) == Ok(built)
    && Reload(h, log, MockSpecOf(op.input).value) == Ok(later)
  }

  /** Frame i is still there, and owns index p; both sides' have only given answers. */
  ghost predicate Placed(st: State, s: Shadow, i: nat, p: nat, built: MockIndex, later: MockIndex) {
    && i < |st.stack| && st.stack[i].ownsMock && OwnIndex(st.stack, i) == p < |st.spanMocks| == |s.mocks|
    && Since(built, st.spanMocks[p]) && Since(later, s.mocks[p])
  }

  lemma InstalledPlaced(h: Host, log: seq<Trace.Record>, st: State, s: Shadow, op: Op, built: MockIndex,
                        later: MockIndex)
    requires Coherent(st) && !st.mode.Replay? && |s.mocks| == |st.spanMocks| && Installs(h, log, st, op, built, later)
    ensures Placed(Step(h, st, op).0, Shade(h, log, st, s, op), |st.stack|, |st.spanMocks|, built, later)
  {
    hide BuildMock, Reload, Agrees, BeginSpan, Since;
    SpecBeginIs(h, st, op.name, op.kind, op.input, built);
    SinceItself(built);
    SinceItself(later);
    PushedOwners(st.stack, FrameOf(st.(spanN := st.spanN + 1), op.name, op.kind, true, None));
  }

  lemma StepKeepsPlaced(h: Host, log: seq<Trace.Record>, st: State, s: Shadow, op: Op, i: nat, p: nat,
                        built: MockIndex, later: MockIndex)
    requires Coherent(st) && !st.mode.Replay? && Placed(st, s, i, p, built, later)
    requires |Step(h, st, op).0.stack| > i
    ensures Placed(Step(h, st, op).0, Shade(h, log, st, s, op), i, p, built, later)
  {
    hide Step, Shade, Coherent, Since, OwnedMocks;
    var st', s' := Step(h, st, op).0, Shade(h, log, st, s, op);
    StepKeepsFrames(h, st, op);
    StepKeepsCoherent(h, st, op);
    StepDraws(h, st, op);
    ShadeDraws(h, log, st, s, op);
    ShadeHeight(h, log, st, s, op);
    assert st'.stack[i] == st.stack[i].(tally := st'.stack[i].tally);
    assert SameShape(st.stack[..i], st'.stack[..i]);
    OwnedDependOnShape(st.stack[..i], st'.stack[..i]);
    MocksCounted(st');
    InnermostBelow(st'.stack, i);
    SinceChains(built, st.spanMocks[p], st'.spanMocks[p]);
    SinceChains(later, s.mocks[p], s'.mocks[p]);
  }

  /** Step b begins an owning span at height i that is open until step k. */
  ghost predicate OwnsSince(h: Host, st: State, g: Guest, b: nat, k: nat, i: nat, log: seq<Trace.Record>,
                            built: MockIndex, later: MockIndex) {
    && Fresh(st) && !st.mode.Replay? && OpenSince(h, st, g, b, k, i)
    && Installs(h, log, Go(h, st, g, b).st, OpAt(h, st, g, b), built, later)
  }

  function PlaceAt(h: Host, st: State, g: Guest, b: nat): nat { |Go(h, st, g, b).st.spanMocks| }

  lemma {:induction false} PlacedSince(h: Host, st: State, g: Guest, b: nat, k: nat, i: nat, log: seq<Trace.Record>,
                                       built: MockIndex, later: MockIndex)
    requires OwnsSince(h, st, g, b, k, i, log, built, later)
    ensures Placed(Go(h, st, g, k).st, Track(h, log, st, g, k), i, PlaceAt(h, st, g, b), built, later)
    decreases k
  {
    hide Step, Shade, Coherent, Placed, Installs;
    var here, s, op := Go(h, st, g, k - 1).st, Track(h, log, st, g, k - 1), OpAt(h, st, g, k - 1);
    GoIsCoherent(h, st, g, k - 1, log);
    if k == b + 1 {
      InstalledPlaced(h, log, here, s, op, built, later);
    } else {
      assert OpenSince(h, st, g, b, k - 1, i);
      PlacedSince(h, st, g, b, k - 1, i, log, built, later);
      assert |Go(h, st, g, k).st.stack| > i;
      StepKeepsPlaced(h, log, here, s, op, i, PlaceAt(h, st, g, b), built, later);
    }
  }

  lemma PlacedLast(st: State, s: Shadow, i: nat, p: nat, built: MockIndex, later: MockIndex)
    requires Placed(st, s, i, p, built, later) && Coherent(st) && InnermostOwner(st.stack, i)
    ensures p == |st.spanMocks| - 1 == |s.mocks| - 1
  {
    hide Agrees, Since;
    InnermostBelow(st.stack, i);
  }

  /** Exactly when a facade comes back: the innermost open owner's index and the replay's
      come to answers that are served alike -- or it is one no mock may serve. */
  lemma FacadeComesBack(h: Host, h': Host, st: State, g: Guest, b: nat, k: nat, i: nat, log: seq<Trace.Record>,
                        built: MockIndex, later: MockIndex)
    requires OwnsSince(h, st, g, b, k, i, log, built, later) && InnermostOwner(Go(h, st, g, k).st.stack, i)
    requires OpAt(h, st, g, k).Begin? && MockSpecOf(OpAt(h, st, g, k).input).None?
    ensures var here, s, p, op := Go(h, st, g, k).st, Track(h, log, st, g, k), PlaceAt(h, st, g, b), OpAt(h, st, g, k);
            && p < |here.spanMocks| == |s.mocks|
            && (FaithfulAt(h, h', log, st, g, k) <==>
                SameAnswer(built, here.spanMocks[p], later, s.mocks[p], Facades(here.stack), op.name, Key(op.name,
                    op.input)))
  {
    hide Go, Track, Coherent, SameAnswer, FaithfulBegin, Since;
    PlacedSince(h, st, g, b, k, i, log, built, later);
    GoIsCoherent(h, st, g, k, log);
    var here, s, op := Go(h, st, g, k).st, Track(h, log, st, g, k), OpAt(h, st, g, k);
    PlacedLast(here, s, i, PlaceAt(h, st, g, b), built, later);
    BuiltAlike(h, log, Go(h, st, g, b).st, OpAt(h, st, g, b), built, later);
    FaithfulByAnswer(h, here, s, op.name, op.input, built, later);
  }

  lemma BuiltAlike(h: Host, log: seq<Trace.Record>, st: State, op: Op, built: MockIndex, later: MockIndex)
    requires Installs(h, log, st, op, built, later)
    ensures SamePolicy(built, later)
    ensures !Names(MockSpecOf(op.input).value, h.runId) ==> later == built
  {
    hide BuildMock, Reload, Names;
    ReloadsAlike(h, log, MockSpecOf(op.input).value, st.log);
  }

  // --- a name no effect was answered under ---

  /** The queues of that name are the same in both. */
  ghost predicate Alike(a: MockIndex, b: MockIndex, name: string) {
    forall k :: Queue(b, name, k) == Queue(a, name, k)
  }

  lemma AlikeTakesAlike(a: MockIndex, b: MockIndex, name: string, name': string, key': Key)
    requires Alike(a, b, name)
    ensures Alike(Take(a, name', key').0, Take(b, name', key').0, name)
    ensures name' == name ==> Take(b, name', key').1 == Take(a, name', key').1
  {
    var x, y := Take(a, name', key').0, Take(b, name', key').0;
    assert Queue(b, name, Exact(key')) == Queue(a, name, Exact(key'))
        && Queue(b, name, Wildcard) == Queue(a, name, Wildcard);
    forall k ensures Queue(y, name, k) == Queue(x, name, k) {
      assert Queue(b, name, k) == Queue(a, name, k);
    }
  }

  lemma AskedAlikeByName(a: MockIndex, b: MockIndex, d: Decision, name: string, name': string, key': Key)
    requires Alike(a, b, name)
    ensures Alike(Asked(a, d, name', key'), Asked(b, d, name', key'), name)
  {
    hide Take, Queue;
    assert Alike(Counted(a, d), Counted(b, d), name) by { CountedAlike(a, b, d, name); }
    AlikeTakesAlike(Counted(a, d), Counted(b, d), name, name', key');
  }

  lemma CountedAlike(a: MockIndex, b: MockIndex, d: Decision, name: string)
    requires Alike(a, b, name)
    ensures Alike(Counted(a, d), Counted(b, d), name)
  {
    forall k ensures Queue(Counted(b, d), name, k) == Queue(Counted(a, d), name, k) {
      assert Queue(b, name, k) == Queue(a, name, k);
    }
  }

  /** No effect record of that name says that a mock answered it. */
  ghost predicate Unanswered(news: seq<Trace.Record>, name: string) {
    forall r | r in news && r.Effect? && r.name == name :: !r.emeta.mocked
  }

  lemma CallKeepsAlike(h: Host, st: State, op: Op, p: nat, theirs: MockIndex, name: string)
    requires !st.mode.Replay? && op.Do? && p < |st.spanMocks| && Alike(st.spanMocks[p], theirs, name)
    requires st.log <= Step(h, st, op).0.log && Unanswered(Step(h, st, op).0.log[|st.log|..], name)
    ensures |Step(h, st, op).0.spanMocks| == |st.spanMocks| && Alike(Step(h, st, op).0.spanMocks[p], theirs, name)
  {
    hide Call, OnlyDrawn, Queue;
    CallIsStretch(h, st, op.name, op.payload);
    CallTells(h, st, op.name, op.payload);
    var st' := Step(h, st, op).0;
    if p == |st.spanMocks| - 1 {
      forall k ensures Queue(theirs, name, k) == Queue(st'.spanMocks[p], name, k) {
        assert Queue(theirs, name, k) == Queue(st.spanMocks[p], name, k);
        assert LastQueue(st'.spanMocks, name, k) == LastQueue(st.spanMocks, name, k);
      }
    }
  }

  lemma ConsultedAlike(m: seq<MockIndex>, mocks: seq<MockIndex>, stack: seq<Frame>, p: nat, name: string, name': string,
                       key': Key)
    requires p < |m| == |mocks| && SamePolicy(m[p], mocks[p]) && Alike(m[p], mocks[p], name)
    ensures Alike(Consulted(m, stack, name', key')[p], Consulted(mocks, stack, name', key')[p], name)
  {
    hide Asked, Decide, Alike;
    if p == |m| - 1 && !NeverSubstituted(name') {
      SameDecision(m[p], mocks[p], name', Facades(stack));
      AskedAlikeByName(m[p], mocks[p], Decide(m[p], name', Facades(stack)), name, name', key');
    }
  }

  lemma StepKeepsAlike(h: Host, log: seq<Trace.Record>, st: State, s: Shadow, op: Op, p: nat, name: string)
    requires Coherent(st) && !st.mode.Replay? && p < |st.spanMocks| == |s.mocks| && p < |Step(h, st, op).0.spanMocks|
    requires SamePolicy(st.spanMocks[p], s.mocks[p]) && Alike(st.spanMocks[p], s.mocks[p], name)
    requires st.log <= Step(h, st, op).0.log && Unanswered(Step(h, st, op).0.log[|st.log|..], name)
    ensures |Shade(h, log, st, s, op).mocks| == |Step(h, st, op).0.spanMocks|
    ensures Alike(Step(h, st, op).0.spanMocks[p], Shade(h, log, st, s, op).mocks[p], name)
  {
    hide Call, BeginSpan, EndMeta, CloseAll, Consulted, SlotFor, BuildMock, Reload, Answered, FilterHit, Alike,
         Coherent, Unanswered;
    ShadeHeight(h, log, st, s, op);
    match op
    case Begin(name', kind, input) =>
      if MockSpecOf(input).None? {
        FacadeBeginIs(h, st, name', kind, input);
        ConsultedKept(st.spanMocks, st.stack, name', Key(name', input));
        ConsultedKept(s.mocks, st.stack, name', Key(name', input));
        ConsultedAlike(st.spanMocks, s.mocks, st.stack, p, name, name', Key(name', input));
      } else if BuildMock(h, MockSpecOf(input).value, st.log).Ok? {
        SpecBeginIs(h, st, name', kind, input, BuildMock(h, MockSpecOf(input).value, st.log).value);
      } else {
        BadBeginKeeps(h, st, name', kind, input);
      }
    case End(ok, output, error) =>
    case Do(name', payload) => CallKeepsAlike(h, st, op, p, s.mocks[p], name);
    case CellDone(cell, ok, error, interrupted) => StepKeepsCoherent(h, st, op);
  }

  /** What the run has recorded since step b. */
  function NewsSince(h: Host, st: State, g: Guest, b: nat, k: nat): seq<Trace.Record>
    requires |Go(h, st, g, b).st.log| <= |Go(h, st, g, k).st.log|
  {
    Go(h, st, g, k).st.log[|Go(h, st, g, b).st.log|..]
  }

  lemma PlacedAlike(st: State, s: Shadow, i: nat, p: nat, built: MockIndex, later: MockIndex)
    requires Placed(st, s, i, p, built, later) && SamePolicy(built, later)
    ensures SamePolicy(st.spanMocks[p], s.mocks[p])
  {
  }

  lemma GoStep(h: Host, st: State, g: Guest, k: nat, log: seq<Trace.Record>)
    requires k > 0
    ensures Go(h, st, g, k).st == Step(h, Go(h, st, g, k - 1).st, OpAt(h, st, g, k - 1)).0
    ensures Track(h, log, st, g, k) == Shade(h, log, Go(h, st, g, k - 1).st, Track(h, log, st, g, k - 1), OpAt(h, st,
            g, k - 1))
  {
    hide Step, Shade;
  }

  lemma {:induction false} AlikeSince(h: Host, st: State, g: Guest, b: nat, k: nat, i: nat, log: seq<Trace.Record>,
                                      built: MockIndex, later: MockIndex, name: string)
    requires OwnsSince(h, st, g, b, k, i, log, built, later) && Alike(built, later, name)
    requires Go(h, st, g, b).st.log <= Go(h, st, g, k).st.log && Unanswered(NewsSince(h, st, g, b, k), name)
    ensures var here, s, p := Go(h, st, g, k).st, Track(h, log, st, g, k), PlaceAt(h, st, g, b);
            p < |here.spanMocks| == |s.mocks| && Alike(here.spanMocks[p], s.mocks[p], name)
    decreases k
  {
    hide Step, Shade, Coherent, Installs, Alike, Unanswered, Go, Track, Since, OwnIndex;
    GoStep(h, st, g, k, log);
    PlacedSince(h, st, g, b, k, i, log, built, later);
    var here, s, op, p := Go(h, st, g, k - 1).st, Track(h, log, st, g, k - 1), OpAt(h, st, g, k - 1), PlaceAt(h, st,
        g, b);
    GoIsCoherent(h, st, g, k - 1, log);
    if k == b + 1 {
      NewestAre(h, log, here, s, op, built, later);
    } else {
      assert OpenSince(h, st, g, b, k - 1, i);
      GoGrows(h, st, g, b, k - 1);
      GoGrows(h, st, g, k - 1, k);
      PlacedSince(h, st, g, b, k - 1, i, log, built, later);
      Tails(Go(h, st, g, b).st.log, here.log, Go(h, st, g, k).st.log);
      UnansweredSplits(NewsSince(h, st, g, b, k - 1), Go(h, st, g, k).st.log[|here.log|..], name);
      AlikeSince(h, st, g, b, k - 1, i, log, built, later, name);
      BuiltAlike(h, log, Go(h, st, g, b).st, OpAt(h, st, g, b), built, later);
      PlacedAlike(here, s, i, p, built, later);
      StepKeepsAlike(h, log, here, s, op, p, name);
    }
  }

  lemma UnansweredSplits(a: seq<Trace.Record>, c: seq<Trace.Record>, name: string)
    requires Unanswered(a + c, name)
    ensures Unanswered(a, name) && Unanswered(c, name)
  {
    forall r | r in a && r.Effect? && r.name == name ensures !r.emeta.mocked { assert r in a + c; }
    forall r | r in c && r.Effect? && r.name == name ensures !r.emeta.mocked { assert r in a + c; }
  }

  /** The index just installed, on both sides. */
  lemma NewestAre(h: Host, log: seq<Trace.Record>, st: State, s: Shadow, op: Op, built: MockIndex, later: MockIndex)
    requires !st.mode.Replay? && |s.mocks| == |st.spanMocks| && Installs(h, log, st, op, built, later)
    ensures var st', s' := Step(h, st, op).0, Shade(h, log, st, s, op);
            && |st'.spanMocks| == |s'.mocks| == |st.spanMocks| + 1
            && st'.spanMocks[|st.spanMocks|] == built && s'.mocks[|st.spanMocks|] == later
  {
    hide BuildMock, Reload, BeginSpan;
    SpecBeginIs(h, st, op.name, op.kind, op.input, built);
  }

  lemma AlikeAnswersAlike(built: MockIndex, mine: MockIndex, later: MockIndex, theirs: MockIndex, facades: seq<string>,
                          name: string, key: Key)
    requires Since(built, mine) && Since(later, theirs) && Alike(mine, theirs, name)
    ensures SameAnswer(built, mine, later, theirs, facades, name, key)
  {
    hide Next, Take, Decide;
    TakesNext(built, mine, name, key);
    TakesNext(later, theirs, name, key);
    AlikeTakesAlike(mine, theirs, name, name, key);
  }

  /** A facade comes back if the trace has no effect of its name that a mock answered since
      the innermost open owner's begin, and that owner's index was built with the same
      queues for the name -- as it is unless its spec names the recorded run. */
  lemma FacadeUnanswered(h: Host, h': Host, st: State, g: Guest, b: nat, k: nat, i: nat, log: seq<Trace.Record>,
                         built: MockIndex, later: MockIndex)
    requires OwnsSince(h, st, g, b, k, i, log, built, later) && InnermostOwner(Go(h, st, g, k).st.stack, i)
    requires OpAt(h, st, g, k).Begin? && MockSpecOf(OpAt(h, st, g, k).input).None?
    requires !Names(MockSpecOf(OpAt(h, st, g, b).input).value, h.runId) || Alike(built, later, OpAt(h, st, g, k).name)
    requires Go(h, st, g, b).st.log <= Go(h, st, g, k).st.log
             && Unanswered(NewsSince(h, st, g, b, k), OpAt(h, st, g, k).name)
    ensures FaithfulAt(h, h', log, st, g, k)
  {
    hide Go, Track, FaithfulAt, Alike, Unanswered, SameAnswer, Since, Names;
    var op := OpAt(h, st, g, k);
    BuiltAlike(h, log, Go(h, st, g, b).st, OpAt(h, st, g, b), built, later);
    assert Alike(built, later, op.name) by { if later == built { AlikeItself(built, op.name); } }
    AlikeSince(h, st, g, b, k, i, log, built, later, op.name);
    PlacedSince(h, st, g, b, k, i, log, built, later);
    var here, s, p := Go(h, st, g, k).st, Track(h, log, st, g, k), PlaceAt(h, st, g, b);
    AlikeAnswersAlike(built, here.spanMocks[p], later, s.mocks[p], Facades(here.stack), op.name, Key(op.name,
        op.input));
    FacadeComesBack(h, h', st, g, b, k, i, log, built, later);
  }

  lemma AlikeItself(idx: MockIndex, name: string)
    ensures Alike(idx, idx, name)
  {
  }

  /** With no index on the stack a facade always comes back. */
  lemma FacadeUnmocked(h: Host, h': Host, st: State, g: Guest, k: nat, log: seq<Trace.Record>)
    requires Fresh(st) && !st.mode.Replay? && Go(h, st, g, k).st.spanMocks == []
    requires OpAt(h, st, g, k).Begin? && MockSpecOf(OpAt(h, st, g, k).input).None?
    ensures FaithfulAt(h, h', log, st, g, k)
  {
    hide Go, Track, Coherent;
    GoIsCoherent(h, st, g, k, log);
  }

  // --- how much further the recording is ---

  /** No wildcard answers for the name, and no repeating ones under the key. */
  ghost predicate PlainQueue(built: MockIndex, name: string, key: Key) {
    && Queue(built, name, Wildcard) == []
    && forall slot | slot in Queue(built, name, Exact(key)) :: !slot.repeats
  }

  lemma PlainTake(built: MockIndex, idx: MockIndex, name: string, key: Key)
    requires PlainQueue(built, name, key) && OnlyDrawn(built, idx)
    ensures var (after, slot) := Take(idx, name, key);
            && (slot.Some? <==> Queue(idx, name, Exact(key)) != [])
            && Drawn(built, after, name, Exact(key)) == Drawn(built, idx, name,
                Exact(key)) + if slot.Some? then 1 else 0
  {
    assert Suffix(Queue(built, name, Exact(key)), Queue(idx, name, Exact(key)));
    assert Suffix(Queue(built, name, Wildcard), Queue(idx, name, Wildcard));
    if Queue(idx, name, Exact(key)) != [] { assert Queue(idx, name, Exact(key))[0] in Queue(built, name, Exact(key)); }
  }

  /** A consult of a facade moves the queue if the facade is served from it. */
  lemma AskMoves(built: MockIndex, m: seq<MockIndex>, stack: seq<Frame>, p: nat, name: string, key: Key,
                 name': string, key': Key)
    requires p < |m| && Since(built, m[p]) && PlainQueue(built, name, key)
    ensures var m' := Consulted(m, stack, name', key');
            && |m'| == |m|
            && Drawn(built, m'[p], name, Exact(key)) == Drawn(built, m[p], name, Exact(key)) +
               if p == |m| - 1 && (name', key') == (name, key) && SlotFor(m, stack, name, key).Some? then 1 else 0
  {
    hide Take, Decide, PlainQueue, OnlyDrawn, Drawn;
    var idx := m[p];
    var d := Decide(idx, name', Facades(stack));
    TakePolicy(idx, d, name', key');
    NothingDrawn(idx, Counted(idx, d));
    DrawnChains(built, idx, Counted(idx, d));
    SameQueuesDrawn(built, idx, Counted(idx, d), name, key);
    if (name', key') == (name, key) {
      PlainTake(built, Counted(idx, d), name, key);
    } else {
      OtherTake(built, Counted(idx, d), name, key, name', key');
    }
  }

  lemma SameQueuesDrawn(built: MockIndex, a: MockIndex, b: MockIndex, name: string, key: Key)
    requires b.queues == a.queues
    ensures Drawn(built, b, name, Exact(key)) == Drawn(built, a, name, Exact(key))
  {
  }

  lemma OtherTake(built: MockIndex, idx: MockIndex, name: string, key: Key, name': string, key': Key)
    requires (name', key') != (name, key)
    ensures Drawn(built, Take(idx, name', key').0, name, Exact(key)) == Drawn(built, idx, name, Exact(key))
  {
    hide Take;
    TakeTouchesOneQueue(idx, name', key', (name, Exact(key)));
  }

  /** What one step took off the queue at place p. */
  function Took(m: seq<MockIndex>, m': seq<MockIndex>, p: nat, name: string, key: Key): nat {
    if p < |m| && p < |m'| then Drawn(m[p], m'[p], name, Exact(key)) else 0
  }

  /** What the effects of steps b + 1 to k took off the queue at place p. */
  function EffectsTook(h: Host, st: State, g: Guest, b: nat, k: nat, p: nat, name: string, key: Key): nat
    decreases k
  {
    if k <= b + 1 then 0
    else
      EffectsTook(h, st, g, b, k - 1, p, name, key) +
      if OpAt(h, st, g, k - 1).Do? then Took(Go(h, st, g, k - 1).st.spanMocks, Go(h, st, g, k).st.spanMocks, p, name,
          key) else 0
  }

  lemma DrawnAdds(built: MockIndex, a: MockIndex, b: MockIndex, name: string, key: Key)
    requires Since(built, a) && Since(a, b)
    ensures Drawn(built, b, name, Exact(key)) == Drawn(built, a, name, Exact(key)) + Drawn(a, b, name, Exact(key))
  {
    hide Queue;
    assert Suffix(Queue(built, name, Exact(key)), Queue(a, name, Exact(key)));
    assert Suffix(Queue(a, name, Exact(key)), Queue(b, name, Exact(key)));
  }

  lemma NoneDrawn(idx: MockIndex, name: string, key: Key)
    ensures Drawn(idx, idx, name, Exact(key)) == 0
  {
  }

  /** How far each side is. */
  function Mine(built: MockIndex, st: State, p: nat, name: string, key: Key): nat {
    if p < |st.spanMocks| then Drawn(built, st.spanMocks[p], name, Exact(key)) else 0
  }

  function Theirs(later: MockIndex, s: Shadow, p: nat, name: string, key: Key): nat {
    if p < |s.mocks| then Drawn(later, s.mocks[p], name, Exact(key)) else 0
  }

  lemma StepShifts(h: Host, h': Host, log: seq<Trace.Record>, st: State, s: Shadow, op: Op, i: nat, p: nat,
                   built: MockIndex, later: MockIndex, name: string, key: Key)
    requires Coherent(st) && !st.mode.Replay? && Placed(st, s, i, p, built, later) && |Step(h, st, op).0.stack| > i
    requires PlainQueue(built, name, key) && PlainQueue(later, name, key) && Faithful(h, h', st, s, op)
    ensures var st', s' := Step(h, st, op).0, Shade(h, log, st, s, op);
            Mine(built, st', p, name, key) + Theirs(later, s, p, name, key) ==
            Mine(built, st, p, name, key) + Theirs(later, s', p, name, key) +
            if op.Do? then Took(st.spanMocks, st'.spanMocks, p, name, key) else 0
  {
    hide Call, BeginSpan, EndMeta, CloseAll, Consulted, SlotFor, BuildMock, Reload, Answered, FilterHit, Since,
         PlainQueue, Drawn,
         Coherent, FaithfulCall, OwnIndex;
    StepKeepsPlaced(h, log, st, s, op, i, p, built, later);
    match op
    case Begin(name', kind, input) =>
      if MockSpecOf(input).None? {
        FacadeBeginIs(h, st, name', kind, input);
        AskMoves(built, st.spanMocks, st.stack, p, name, key, name', Key(name', input));
        AskMoves(later, s.mocks, st.stack, p, name, key, name', Key(name', input));
      } else {
        SpecBeginIs(h, st, name', kind, input, BuildMock(h, MockSpecOf(input).value, st.log).value);
        ReloadsAlike(h, log, MockSpecOf(input).value, st.log);
      }
    case End(ok, output, error) =>
    case Do(name', payload) =>
      StepDraws(h, st, op);
      DrawnAdds(built, st.spanMocks[p], Step(h, st, op).0.spanMocks[p], name, key);
    case CellDone(cell, ok, error, interrupted) => StepKeepsCoherent(h, st, op);
  }

  /** As long as every step comes back, the recording is further down the queue than the
      replay by what effects took from it. */
  lemma {:induction false} EffectsShift(h: Host, h': Host, st: State, g: Guest, b: nat, k: nat, i: nat,
                                        log: seq<Trace.Record>,
                                        built: MockIndex, later: MockIndex, name: string, key: Key)
    requires OwnsSince(h, st, g, b, k, i, log, built, later) && FaithfulRun(h, h', log, st, g, k)
    requires PlainQueue(built, name, key) && PlainQueue(later, name, key)
    ensures var here, s, p := Go(h, st, g, k).st, Track(h, log, st, g, k), PlaceAt(h, st, g, b);
            Mine(built, here, p, name, key) == Theirs(later, s, p, name, key) + EffectsTook(h, st, g, b, k, p, name,
                key)
    decreases k
  {
    hide Step, Shade, Coherent, Installs, PlainQueue, Faithful, Placed, Mine, Theirs, Took, Go, Track;
    GoStep(h, st, g, k, log);
    var here, s, op, p := Go(h, st, g, k - 1).st, Track(h, log, st, g, k - 1), OpAt(h, st, g, k - 1), PlaceAt(h, st,
        g, b);
    GoIsCoherent(h, st, g, k - 1, log);
    if k == b + 1 {
      NewestAre(h, log, here, s, op, built, later);
      NewestUndrawn(Go(h, st, g, k).st, Track(h, log, st, g, k), p, built, later, name, key);
    } else {
      assert OpenSince(h, st, g, b, k - 1, i) && |Go(h, st, g, k).st.stack| > i;
      assert FaithfulAt(h, h', log, st, g, k - 1);
      PlacedSince(h, st, g, b, k - 1, i, log, built, later);
      EffectsShift(h, h', st, g, b, k - 1, i, log, built, later, name, key);
      StepShifts(h, h', log, here, s, op, i, p, built, later, name, key);
    }
  }

  lemma NewestUndrawn(st: State, s: Shadow, p: nat, built: MockIndex, later: MockIndex, name: string, key: Key)
    requires p < |st.spanMocks| == |s.mocks| && st.spanMocks[p] == built && s.mocks[p] == later
    ensures Mine(built, st, p, name, key) == Theirs(later, s, p, name, key) == 0
  {
    NoneDrawn(built, name, key);
    NoneDrawn(later, name, key);
  }

  function ServedAt(q: seq<Slot>, n: nat): Option<Served> {
    if n < |q| then Some(ServedOutcome(q[n].rec)) else None
  }

  lemma PlainNext(built: MockIndex, idx: MockIndex, name: string, key: Key)
    requires PlainQueue(built, name, key)
    ensures ServedAs(Next(built, idx, name, key)) ==
            ServedAt(Queue(built, name, Exact(key)), Drawn(built, idx, name, Exact(key)))
  {
  }

  lemma ShiftedAnswer(built: MockIndex, mine: MockIndex, later: MockIndex, theirs: MockIndex, facades: seq<string>,
                      name: string, key: Key)
    requires PlainQueue(built, name, key) && PlainQueue(later, name, key)
    ensures SameAnswer(built, mine, later, theirs, facades, name, key) <==>
              || NeverSubstituted(name) || !Decide(built, name, facades).IsMockable()
              || ServedAt(Queue(built, name, Exact(key)), Drawn(built, mine, name, Exact(key)))
                 == ServedAt(Queue(later, name, Exact(key)), Drawn(later, theirs, name, Exact(key)))
  {
    hide PlainQueue, Decide, Next, Drawn, ServedAt, Queue, NeverSubstituted;
    PlainNext(built, mine, name, key);
    PlainNext(later, theirs, name, key);
  }

  /** Exactly when the first facade that may not come back does, all read off the recording:
      the replay has come to the entry as many places before the recording's as effects took. */
  lemma FacadeShifts(h: Host, h': Host, st: State, g: Guest, b: nat, k: nat, i: nat, log: seq<Trace.Record>,
                     built: MockIndex, later: MockIndex)
    requires OwnsSince(h, st, g, b, k, i, log, built, later) && InnermostOwner(Go(h, st, g, k).st.stack, i)
    requires OpAt(h, st, g, k).Begin? && MockSpecOf(OpAt(h, st, g, k).input).None? && FaithfulRun(h, h', log, st, g, k)
    requires var op := OpAt(h, st, g, k);
             PlainQueue(built, op.name, Key(op.name, op.input)) && PlainQueue(later, op.name, Key(op.name, op.input))
    ensures var here, p, op := Go(h, st, g, k).st, PlaceAt(h, st, g, b), OpAt(h, st, g, k);
            var key := Key(op.name, op.input);
            var at, took := Mine(built, here, p, op.name, key), EffectsTook(h, st, g, b, k, p, op.name, key);
            && took <= at
            && (FaithfulAt(h, h', log, st, g, k) <==>
                || NeverSubstituted(op.name) || !Decide(built, op.name, Facades(here.stack)).IsMockable()
                || ServedAt(Queue(later, op.name, Exact(key)), at - took) == ServedAt(Queue(built, op.name, Exact(key)), at))
  {
    hide Go, Track, FaithfulAt, FaithfulRun, PlainQueue, Decide, EffectsTook, Since, Drawn, SameAnswer, OwnsSince,
         ServedAt, InnermostOwner, Queue, NeverSubstituted;
    var here, s, p, op := Go(h, st, g, k).st, Track(h, log, st, g, k), PlaceAt(h, st, g, b), OpAt(h, st, g, k);
    var key := Key(op.name, op.input);
    FacadeComesBack(h, h', st, g, b, k, i, log, built, later);
    EffectsShift(h, h', st, g, b, k, i, log, built, later, op.name, key);
    ShiftedAnswer(built, here.spanMocks[p], later, s.mocks[p], Facades(here.stack), op.name, key);
  }

  // --- why a name and not a key ---

  function Inlined(output: string): Slot { Slot(Outcome(Str(output), None, None), Null, None, false) }

  /** Effects that took no answer for a key can still change what it gets: the effect takes
      the answer for one key, so that a facade with that key takes the wildcard's -- the
      same answer -- and a facade with another key finds none, where the replay has one. */
  lemma AnotherKeySpills(a: Key, c: Key)
    requires a != c
    ensures var idx := MockIndex(map[("tool", Exact(a)) := [Inlined("x")], ("tool", Wildcard) := [Inlined("x")]],
                                 [], [], Fail, 0, 0, []);
            var afterEffect := Take(idx, "tool", a).0;
            && Take(afterEffect, "tool", a).1 == Take(idx, "tool", a).1 == Some(Inlined("x"))
            && Take(Take(afterEffect, "tool", a).0, "tool", c).1 == None
            && Take(Take(idx, "tool", a).0, "tool", c).1 == Some(Inlined("x"))
  {
  }
}
