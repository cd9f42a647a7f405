/** What one effect call may do to the broker, however deeply it re-enters. */
module Stretch {
  import opened Options
  import opened Json
  import opened Trace
  import opened Mocks
  import opened Pipeline
  import opened Brackets

  predicate SameShape(a: seq<Frame>, b: seq<Frame>) {
    |a| == |b| && forall i :: 0 <= i < |a| ==> b[i] == a[i].(tally := b[i].tally)
  }

  predicate Charged(a: seq<Frame>, b: seq<Frame>, t: Tally) {
    |a| == |b| && forall i :: 0 <= i < |a| ==> b[i].tally == a[i].tally.Plus(t)
  }

  /** A mock index keeps its mockable set and its miss policy; only queues and hit
      counts move. */
  predicate SamePolicy(a: MockIndex, b: MockIndex) {
    a.only == b.only && a.except == b.except && a.unmatched == b.unmatched
  }

  predicate Suffix(a: seq<Slot>, b: seq<Slot>) { |b| <= |a| && b == a[|a| - |b|..] }

  /** Answers are only ever taken off the front of a queue. */
  ghost predicate OnlyDrawn(a: MockIndex, b: MockIndex) {
    forall name, k :: Suffix(Queue(a, name, k), Queue(b, name, k))
  }

  /** Only the innermost index is ever consulted. */
  ghost predicate OnlyLastUsed(a: seq<MockIndex>, b: seq<MockIndex>) {
    && |a| == |b| && (a != [] ==> SamePolicy(a[|a| - 1], b[|a| - 1]) && OnlyDrawn(a[|a| - 1], b[|a| - 1]))
    && forall i :: 0 <= i < |a| - 1 ==> b[i] == a[i]
  }

  /** What one call, however deeply it re-enters, may do between two states: it
      only appends effect records in the current span, charges every open span
      exactly what those records weigh, and leaves everything else in place. */
  ghost predicate Within(st: State, st': State) {
    && st'.mode == st.mode && st'.cell == st.cell && st'.grants == st.grants
    && st'.hosted == st.hosted && st'.spanN == st.spanN && st'.cursor == st.cursor
    && OnlyLastUsed(st.spanMocks, st'.spanMocks) && SameShape(st.stack, st'.stack)
    && st.log <= st'.log && st.ran <= st'.ran
    && var news := st'.log[|st.log|..];
       && EffectsIn(news, TopId(st))
       && Charged(st.stack, st'.stack, Count(news))
       && st'.mutations == st.mutations + Count(news).mutations
  }

  lemma ShapeChains(a: seq<Frame>, b: seq<Frame>, c: seq<Frame>, t: Tally, u: Tally)
    requires SameShape(a, b) && SameShape(b, c) && Charged(a, b, t) && Charged(b, c, u)
    ensures SameShape(a, c) && Charged(a, c, t.Plus(u))
  {
    forall i | 0 <= i < |a| ensures c[i] == a[i].(tally := c[i].tally) {
      assert b[i] == a[i].(tally := b[i].tally);
    }
  }

  lemma SameTop(a: State, b: State)
    requires SameShape(a.stack, b.stack)
    ensures TopId(a) == TopId(b)
  {
    if a.stack != [] {
      assert b.stack[|a.stack| - 1] == a.stack[|a.stack| - 1].(tally := b.stack[|a.stack| - 1].tally);
    }
  }

  lemma WithinChains(a: State, b: State, c: State)
    requires Within(a, b) && Within(b, c)
    ensures Within(a, c)
  {
    hide Count, SameShape, Charged, EffectsIn, OnlyLastUsed;
    var ab, bc := b.log[|a.log|..], c.log[|b.log|..];
    SameTop(a, b);
    Tails(a.log, b.log, c.log);
    EffectsInConcat(ab, bc, TopId(a));
    CountConcat(ab, bc);
    ShapeChains(a.stack, b.stack, c.stack, Count(ab), Count(bc));
    UsedChains(a.spanMocks, b.spanMocks, c.spanMocks);
  }

  lemma Tails(a: seq<Trace.Record>, b: seq<Trace.Record>, c: seq<Trace.Record>)
    requires a <= b <= c
    ensures a <= c && c[|a|..] == b[|a|..] + c[|b|..]
  {
  }

  lemma UsedChains(a: seq<MockIndex>, b: seq<MockIndex>, c: seq<MockIndex>)
    requires OnlyLastUsed(a, b) && OnlyLastUsed(b, c)
    ensures OnlyLastUsed(a, c)
  {
    hide OnlyDrawn;
    if a != [] { DrawnChains(a[|a| - 1], b[|a| - 1], c[|a| - 1]); }
  }

  lemma DrawnChains(a: MockIndex, b: MockIndex, c: MockIndex)
    requires OnlyDrawn(a, b) && OnlyDrawn(b, c)
    ensures OnlyDrawn(a, c)
  {
    hide Queue;
    forall name, k ensures Suffix(Queue(a, name, k), Queue(c, name, k)) {
      assert Suffix(Queue(a, name, k), Queue(b, name, k)) && Suffix(Queue(b, name, k), Queue(c, name, k));
    }
  }

  lemma NothingDrawn(a: MockIndex, b: MockIndex)
    requires b.queues == a.queues
    ensures OnlyDrawn(a, b)
  {
  }

  lemma TakeDraws(idx: MockIndex, name: string, key: Key)
    ensures OnlyDrawn(idx, Take(idx, name, key).0)
  {
    var after := Take(idx, name, key).0;
    forall name', k ensures Suffix(Queue(idx, name', k), Queue(after, name', k)) {
      TakeTouchesOneQueue(idx, name, key, (name', k));
    }
  }

  /** Bumping the counters and then writing the matching record, with a nested
      stretch in between, is again a stretch. */
  lemma BumpThenWrite(st: State, mid: State, r: Trace.Record, cls: Class, mocked: bool)
    requires Within(Bump(st, cls, mocked), mid)
    requires r.Effect? && r.span == TopId(st) && Weight(r) == One(cls, mocked)
    ensures Within(st, Write(mid, r))
  {
    var up := Bump(st, cls, mocked);
    var nested, news := mid.log[|st.log|..], (mid.log + [r])[|st.log|..];
    hide Count, Weight, Bump, SameShape, Charged;
    assert news == nested + [r];
    ReadOn(nested, r);
    SameTop(st, up);
    ShapeChains(st.stack, up.stack, mid.stack, One(cls, mocked), Count(nested));
    EffectsInConcat(nested, [r], TopId(st));
  }

  lemma TakeKeepsPolicy(idx: MockIndex, d: Decision, name: string, key: Key)
    ensures SamePolicy(idx, Counted(idx, d)) && SamePolicy(idx, Take(Counted(idx, d), name, key).0)
    ensures OnlyDrawn(idx, Counted(idx, d)) && OnlyDrawn(idx, Take(Counted(idx, d), name, key).0)
  {
    TakePolicy(idx, d, name, key);
    NothingDrawn(idx, Counted(idx, d));
    TakeDraws(Counted(idx, d), name, key);
    DrawnChains(idx, Counted(idx, d), Take(Counted(idx, d), name, key).0);
  }

  lemma TakePolicy(idx: MockIndex, d: Decision, name: string, key: Key)
    ensures SamePolicy(idx, Counted(idx, d)) && SamePolicy(idx, Take(Counted(idx, d), name, key).0)
    ensures Counted(idx, d).queues == idx.queues
  {
  }

  lemma SameMocks(mocks: seq<MockIndex>)
    ensures OnlyLastUsed(mocks, mocks)
  {
    if mocks != [] { NothingDrawn(mocks[|mocks| - 1], mocks[|mocks| - 1]); }
  }

  lemma ConsultKeeps(st: State, name: string, key: Key)
    ensures var st1 := ConsultMock(st, name, key).0;
            Within(st, st1) && st1.log == st.log && st1.stack == st.stack && TopId(st1) == TopId(st)
            && st1.mutations == st.mutations && st1.ran == st.ran && st1.mode == st.mode
  {
    hide Decide, Take, NeverMockable, Count, Counted;
    var st1 := ConsultMock(st, name, key).0;
    if ActiveMock(st).Some? {
      TakeKeepsPolicy(ActiveMock(st).value, Decide(ActiveMock(st).value, name, Facades(st.stack)), name, key);
    }
    assert st1 == st.(spanMocks := st1.spanMocks, mockIndex := st1.mockIndex) && |st1.spanMocks| == |st.spanMocks|;
    EmptyCount();
    assert st.log[|st.log|..] == [];
  }

  /** Writing one record right after the bump it accounts for. */
  lemma OneRecord(st: State, r: Trace.Record, cls: Class, mocked: bool)
    requires r.Effect? && r.span == TopId(st) && Weight(r) == One(cls, mocked)
    ensures Within(st, Write(Bump(st, cls, mocked), r))
  {
    BumpThenWrite(st, Bump(st, cls, mocked), r, cls, mocked);
  }

  /** Conservation through every nesting of batch and host-emitted calls. */
  lemma {:induction false} CallIsStretch(h: Host, st: State, name: string, given: Json)
    requires !st.mode.Replay?
    ensures Within(st, Call(h, st, name, given).0)
    decreases Rank(name, given), 3
  {
    var m := if name == "blob.put" then h.materialize(given) else Ok(given);
    if m.Err? {
    } else {
      var payload := m.value;
      var cls := Classify(h, name, payload);
      var end := Call(h, st, name, given).0;
      if IsDenied(h, st, name, payload) {
        OneRecord(st, end.log[|st.log|], cls, false);
      } else {
        AdmittedIsStretch(h, st, name, payload, cls);
      }
    }
  }

  lemma {:induction false} AdmittedIsStretch(h: Host, st: State, name: string, payload: Json, cls: Class)
    requires !st.mode.Replay?
    ensures Within(st, CallAdmitted(h, st, name, payload, cls).0)
    decreases Rank(name, payload), 2
  {
    hide ConsultMock, Execute, Within;
    var key := Key(name, payload);
    var end := CallAdmitted(h, st, name, payload, cls).0;
    var (st1, consult) := ConsultMock(st, name, key);
    ConsultKeeps(st, name, key);
    match consult {
      case Serve(slot) =>
        OneRecord(st1, end.log[|st.log|], cls, true);
      case Miss(Fail) =>
        OneRecord(st1, end.log[|st.log|], cls, false);
      case _ =>
        LiveIsStretch(h, st1, name, payload, cls, consult.Miss?);
    }
    WithinChains(st, st1, end);
  }

  lemma {:induction false} LiveIsStretch(h: Host, st: State, name: string, payload: Json, cls: Class, unmatched: bool)
    requires !st.mode.Replay?
    ensures Within(st, CallLive(h, st, name, payload, cls, unmatched).0)
    decreases Rank(name, payload), 1
  {
    var up := Bump(st, cls, false);
    ExecuteIsStretch(h, up, name, payload);
    var (st2, r) := Execute(h, up, name, payload);
    SameTop(st, up);
    BumpThenWrite(st, st2, WriteLive(h, st2, name, payload, cls, unmatched, r).log[|st2.log|], cls, false);
  }

  lemma {:induction false} ExecuteIsStretch(h: Host, st: State, name: string, payload: Json)
    requires !st.mode.Replay?
    ensures Within(st, Execute(h, st, name, payload).0)
    decreases Rank(name, payload), 0
  {
    hide Call, Batch, Count;
    var st1 := LogRun(st, name, payload);
    EmptyCount();
    assert st1.log[|st.log|..] == [];
    assert Within(st, st1);
    if IsHttp(name) {
      var a := h.answer(|st.ran|, name, payload);
      if a.refresh.Some? {
        var provider := a.refresh.value;
        assert "oauth.refresh"[0] != "http."[0];
        var inner := st1.(hosted := st1.hosted + 1);
        CallIsStretch(h, inner, "oauth.refresh", Obj([Field("provider", Str(provider))]));
        var st2 := CallHosted(h, st1, provider).0;
        assert TopId(inner) == TopId(st1);
        assert Within(st1, st2);
        WithinChains(st, st1, st2);
      }
    } else if name == "batch" {
      BatchIsStretch(h, st1, payload);
      WithinChains(st, st1, Batch(h, st1, payload).0);
    }
  }

  lemma {:induction false} BatchIsStretch(h: Host, st: State, payload: Json)
    requires !st.mode.Replay?
    ensures Within(st, Batch(h, st, payload).0)
    decreases 1 + Size(payload), 5
  {
    var name, items := GetStr(payload, "name"), GetArr(payload, "payloads");
    if items != [] {
      CallIsStretch(h, st, name, items[0]);
      var st1 := Call(h, st, name, items[0]).0;
      ItemsAreStretch(h, st1, name, items[1..]);
      WithinChains(st, st1, BatchItems(h, st1, name, items[1..]).0);
    }
  }

  lemma {:induction false} ItemsAreStretch(h: Host, st: State, name: string, items: seq<Json>)
    requires !st.mode.Replay?
    ensures Within(st, BatchItems(h, st, name, items).0)
    decreases 2 + SizeItems(items), 4
  {
    if items != [] {
      CallIsStretch(h, st, name, items[0]);
      var st1 := Call(h, st, name, items[0]).0;
      ItemsAreStretch(h, st1, name, items[1..]);
      WithinChains(st, st1, BatchItems(h, st1, name, items[1..]).0);
    }
  }
}
