/** Re-entrant calls: what batch and host-emitted calls may run, under grants
    and when a batch is refused whole. */
module Reentry {
  import opened Options
  import opened Json
  import opened Trace
  import opened Mocks
  import opened Caps
  import opened Pipeline

  /** Everything run since `st` was granted or host-emitted. */
  ghost predicate Gated(h: Host, g: GrantSet, st: State, st': State) {
    && st.ran <= st'.ran && st'.hosted == st.hosted && st'.grants == st.grants
    && forall k :: |st.ran| <= k < |st'.ran| ==>
         st'.ran[k].hosted || g.Allowed(CapOf(h, st'.ran[k].name, st'.ran[k].payload))
  }

  lemma {:induction false} DrainRunsNothing(h: Host, st: State, name: string, key: Key)
    ensures var st' := Drain(h, st, name, key);
            st'.ran == st.ran && st'.hosted == st.hosted && st'.grants == st.grants
    decreases |st.cursor.log| - st.cursor.pos
  {
    if st.cursor.HostedMismatch(name, key) {
      var rec := st.cursor.log[st.cursor.pos];
      DrainRunsNothing(h, WriteThrough(st, rec.name, rec.input, rec.key, Classify(h, rec.name, rec.input)), name, key);
    }
  }

  /** In every mode and at every nesting, a broker with grants runs only what a
      grant allows or what the host itself emitted; and the hosted depth is back
      where it was, on success and on error. */
  lemma {:induction false} EveryRunIsGranted(h: Host, g: GrantSet, st: State, name: string, given: Json)
    requires st.grants == Some(g) && st.hosted >= 0
    ensures Gated(h, g, st, Call(h, st, name, given).0)
    decreases Rank(name, given), 3
  {
    hide CallAdmitted, ReplayCall;
    var m := if name == "blob.put" then h.materialize(given) else Ok(given);
    if m.Ok? && !IsDenied(h, st, name, m.value) {
      var payload := m.value;
      if st.mode.Replay? {
        ReplayIsGated(h, g, st, name, payload);
      } else {
        AdmittedIsGated(h, g, st, name, payload, Classify(h, name, payload));
      }
    }
  }

  lemma ReplayIsGated(h: Host, g: GrantSet, st: State, name: string, payload: Json)
    requires st.grants == Some(g) && st.hosted >= 0 && !IsDenied(h, st, name, payload)
    ensures Gated(h, g, st, ReplayCall(h, st, name, payload).0)
  {
    hide Drain, Classify;
    DrainRunsNothing(h, st, name, Key(name, payload));
  }

  lemma {:induction false} AdmittedIsGated(h: Host, g: GrantSet, st: State, name: string, payload: Json, cls: Class)
    requires st.grants == Some(g) && st.hosted >= 0 && !IsDenied(h, st, name, payload)
    ensures Gated(h, g, st, CallAdmitted(h, st, name, payload, cls).0)
    decreases Rank(name, payload), 2
  {
    var (st1, consult) := ConsultMock(st, name, Key(name, payload));
    assert st1.ran == st.ran && st1.hosted == st.hosted && st1.grants == st.grants;
    match consult {
      case Serve(slot) =>
      case Miss(Fail) =>
      case _ =>
        ExecuteIsGated(h, g, Bump(st1, cls, false), name, payload);
    }
  }

  lemma {:induction false} ExecuteIsGated(h: Host, g: GrantSet, st: State, name: string, payload: Json)
    requires st.grants == Some(g) && st.hosted >= 0 && !IsDenied(h, st, name, payload)
    ensures Gated(h, g, st, Execute(h, st, name, payload).0)
    decreases Rank(name, payload), 0
  {
    hide Call, Batch;
    var st1 := LogRun(st, name, payload);
    assert Gated(h, g, st, st1);
    if IsHttp(name) {
      var a := h.answer(|st.ran|, name, payload);
      if a.refresh.Some? {
        assert "oauth.refresh"[0] != "http."[0];
        EveryRunIsGranted(h, g, st1.(hosted := st1.hosted + 1), "oauth.refresh",
                          Obj([Field("provider", Str(a.refresh.value))]));
      }
    } else if name == "batch" {
      BatchIsGated(h, g, st1, payload);
    }
  }

  lemma {:induction false} BatchIsGated(h: Host, g: GrantSet, st: State, payload: Json)
    requires st.grants == Some(g) && st.hosted >= 0
    ensures Gated(h, g, st, Batch(h, st, payload).0)
    decreases 1 + Size(payload), 5
  {
    hide Call, BatchItems;
    var name, items := GetStr(payload, "name"), GetArr(payload, "payloads");
    if items != [] {
      EveryRunIsGranted(h, g, st, name, items[0]);
      var st1 := Call(h, st, name, items[0]).0;
      ItemsAreGated(h, g, st1, name, items[1..]);
    }
  }

  lemma {:induction false} ItemsAreGated(h: Host, g: GrantSet, st: State, name: string, items: seq<Json>)
    requires st.grants == Some(g) && st.hosted >= 0
    ensures Gated(h, g, st, BatchItems(h, st, name, items).0)
    decreases 2 + SizeItems(items), 4
  {
    hide Call;
    if items != [] {
      EveryRunIsGranted(h, g, st, name, items[0]);
      var st1 := Call(h, st, name, items[0]).0;
      ItemsAreGated(h, g, st1, name, items[1..]);
    }
  }

  // --- a batch refused whole ---

  predicate IsUnknown(r: Result<Json, Failure>) { r.Err? && r.error.kind == UNKNOWN }

  lemma KindsDiffer()
    ensures DENIED != UNKNOWN && "host_only" != UNKNOWN && "mock_unmatched" != UNKNOWN
  {
    assert DENIED[0] != UNKNOWN[0] && "host_only"[0] != UNKNOWN[0] && "mock_unmatched"[0] != UNKNOWN[0];
  }

  lemma RefreshIsItsOwn()
    ensures !IsHttp("oauth.refresh") && Known("oauth.refresh")
    ensures "oauth.refresh" !in {"batch", "blob.read", "blob.put", "kernel.boot"}
  {
    assert "oauth.refresh"[0] != "http."[0];
    assert |"oauth.refresh"| != |"batch"| && |"oauth.refresh"| != |"blob.read"|;
    assert |"oauth.refresh"| != |"blob.put"| && |"oauth.refresh"| != |"kernel.boot"|;
  }

  /** No implemented effect answers with the broker's own refusal. */
  ghost predicate HonestWorld(h: Host) {
    && (forall n, name, payload :: !IsUnknown(h.answer(n, name, payload).result))
    && (forall payload :: !IsUnknown(h.blobRead(payload)))
    && (forall payload :: !IsUnknown(h.materialize(payload)))
  }

  /** Only the fan-out itself and names that are no effect were reached. */
  ghost predicate RanNoEffect(st: State, st': State) {
    && st.ran <= st'.ran
    && forall k :: |st.ran| <= k < |st'.ran| ==> st'.ran[k].name == "batch" || !Known(st'.ran[k].name)
  }

  /** No mock in use answers a token refresh with that refusal. */
  ghost predicate HonestRefresh(st: State) {
    forall k, slot | ActiveMock(st).Some? && slot in Queue(ActiveMock(st).value, "oauth.refresh",
        k) :: !IsUnknown(Recorded(slot.rec))
  }

  /** What a consult leaves, and what it answers with, was there before. */
  lemma TakesWhatIsThere(idx: MockIndex, d: Decision, name: string, key: Key, name': string, k: MockKey, slot: Slot)
    ensures slot in Queue(Counted(idx, d), name', k) ==> slot in Queue(idx, name', k)
    ensures slot in Queue(Take(Counted(idx, d), name, key).0, name', k) ==> slot in Queue(idx, name', k)
    ensures Take(Counted(idx, d), name, key).1 == Some(slot) ==>
              slot in Queue(idx, name, Exact(key)) || slot in Queue(idx, name, Wildcard)
  {
  }

  lemma ConsultStaysHonest(st: State, name: string, key: Key)
    requires HonestRefresh(st)
    ensures var (st1, c) := ConsultMock(st, name, key);
            && HonestRefresh(st1) && st1 == st.(spanMocks := st1.spanMocks, mockIndex := st1.mockIndex)
            && (name == "oauth.refresh" && c.Serve? ==> !IsUnknown(Recorded(c.slot.rec)))
  {
    hide Decide, NeverMockable, IsUnknown, Recorded, Counted, Take, Queue;
    var (st1, c) := ConsultMock(st, name, key);
    if ActiveMock(st).Some? {
      var idx := ActiveMock(st).value;
      var d := Decide(idx, name, Facades(st.stack));
      forall k, slot | ActiveMock(st1).Some? && slot in Queue(ActiveMock(st1).value, "oauth.refresh", k)
        ensures !IsUnknown(Recorded(slot.rec))
      {
        TakesWhatIsThere(idx, d, name, key, "oauth.refresh", k, slot);
      }
      if c.Serve? { TakesWhatIsThere(idx, d, name, key, name, Wildcard, c.slot); }
    }
  }

  lemma ActiveStaysHonest(a: State, b: State)
    requires HonestRefresh(a) && b.spanMocks == a.spanMocks && b.mockIndex == a.mockIndex && b.mode == a.mode
    ensures HonestRefresh(b)
  {
    assert ActiveMock(b) == ActiveMock(a);
  }

  lemma NothingRan(st: State, st': State)
    requires st'.ran == st.ran
    ensures RanNoEffect(st, st')
  {
  }

  /** In every mode and under whatever mocks, a call that comes back `unknown_effect` -- a
      bare one or a batch of any depth -- reached no effect. */
  lemma {:induction false} UnknownRanNothing(h: Host, st: State, name: string, given: Json)
    requires HonestWorld(h) && HonestRefresh(st)
    requires IsUnknown(Call(h, st, name, given).1)
    ensures RanNoEffect(st, Call(h, st, name, given).0)
    decreases Rank(name, given), 3
  {
    hide ConsultMock, Classify, CapOf, CallAdmitted, ReplayCall, HonestRefresh, RanNoEffect;
    KindsDiffer();
    var m := if name == "blob.put" then h.materialize(given) else Ok(given);
    assert m.Ok? && !IsDenied(h, st, name, m.value);
    if st.mode.Replay? {
      UnknownReplayRanNothing(h, st, name, m.value);
    } else {
      UnknownAdmittedRanNothing(h, st, name, m.value, Classify(h, name, m.value));
    }
  }

  lemma UnknownReplayRanNothing(h: Host, st: State, name: string, payload: Json)
    requires HonestWorld(h) && IsUnknown(ReplayCall(h, st, name, payload).1)
    ensures RanNoEffect(st, ReplayCall(h, st, name, payload).0)
  {
    hide Drain, Classify;
    assert DIVERGENCE.kind[0] != UNKNOWN[0];
    DrainRunsNothing(h, st, name, Key(name, payload));
    NothingRan(st, ReplayCall(h, st, name, payload).0);
  }

  lemma {:induction false} UnknownAdmittedRanNothing(h: Host, st: State, name: string, payload: Json, cls: Class)
    requires HonestWorld(h) && HonestRefresh(st) && !st.mode.Replay?
    requires IsUnknown(CallAdmitted(h, st, name, payload, cls).1)
    ensures RanNoEffect(st, CallAdmitted(h, st, name, payload, cls).0)
    decreases Rank(name, payload), 2
  {
    hide ConsultMock, Execute, HonestRefresh;
    KindsDiffer();
    var (st1, c) := ConsultMock(st, name, Key(name, payload));
    ConsultStaysHonest(st, name, Key(name, payload));
    if !c.Serve? && !(c.Miss? && c.policy.Fail?) {
      var up := Bump(st1, cls, false);
      ActiveStaysHonest(st1, up);
      UnknownExecutionRanNothing(h, up, name, payload);
    }
  }

  lemma {:induction false} UnknownExecutionRanNothing(h: Host, st: State, name: string, payload: Json)
    requires HonestWorld(h) && HonestRefresh(st) && !st.mode.Replay?
    requires IsUnknown(Execute(h, st, name, payload).1)
    ensures RanNoEffect(st, Execute(h, st, name, payload).0)
    decreases Rank(name, payload), 0
  {
    hide Call, Batch, CallHosted, HonestRefresh;
    KindsDiffer();
    var st1 := LogRun(st, name, payload);
    ActiveStaysHonest(st, st1);
    if IsHttp(name) {
      var a := h.answer(|st.ran|, name, payload);
      if a.refresh.Some? {
        HostedIsKnown(h, st1, a.refresh.value);
      }
    } else if name == "batch" {
      assert Execute(h, st, name, payload) == Batch(h, st1, payload);
      UnknownBatchRanNothing(h, st1, payload);
    }
  }

  lemma {:induction false} UnknownBatchRanNothing(h: Host, st: State, payload: Json)
    requires HonestWorld(h) && HonestRefresh(st) && !st.mode.Replay?
    requires IsUnknown(Batch(h, st, payload).1)
    ensures RanNoEffect(st, Batch(h, st, payload).0)
    decreases 1 + Size(payload), 5
  {
    hide Call, BatchItems, HonestRefresh;
    var name, items := GetStr(payload, "name"), GetArr(payload, "payloads");
    SizeOfItem(items, 0);
    UnknownRanNothing(h, st, name, items[0]);
  }

  lemma AdmittedRefreshIsKnown(h: Host, st: State, payload: Json, cls: Class)
    requires HonestWorld(h) && HonestRefresh(st)
    ensures !IsUnknown(CallAdmitted(h, st, "oauth.refresh", payload, cls).1)
  {
    hide ConsultMock, Execute, HonestRefresh, HonestWorld;
    KindsDiffer();
    ConsultStaysHonest(st, "oauth.refresh", Key("oauth.refresh", payload));
    var st1 := ConsultMock(st, "oauth.refresh", Key("oauth.refresh", payload)).0;
    RefreshAnswer(h, Bump(st1, cls, false), payload);
  }

  lemma HostedIsKnown(h: Host, st: State, provider: string)
    requires HonestWorld(h) && HonestRefresh(st) && !st.mode.Replay?
    ensures !IsUnknown(CallHosted(h, st, provider).1)
  {
    hide Classify, CapOf, CallAdmitted, HonestRefresh, HonestWorld;
    KindsDiffer();
    RefreshIsItsOwn();
    var inner := st.(hosted := st.hosted + 1);
    ActiveStaysHonest(st, inner);
    var payload := Obj([Field("provider", Str(provider))]);
    AdmittedRefreshIsKnown(h, inner, payload, Classify(h, "oauth.refresh", payload));
  }

  lemma PlainlyLive(h: Host, st: State, name: string, payload: Json, cls: Class)
    requires st.mode.Record? && st.spanMocks == []
    ensures CallAdmitted(h, st, name, payload, cls) == CallLive(h, st, name, payload, cls, false)
  {
    assert ConsultMock(st, name, Key(name, payload)) == (st, Plain);
  }

  lemma RefreshAnswer(h: Host, st: State, payload: Json)
    requires HonestWorld(h)
    ensures !IsUnknown(Execute(h, st, "oauth.refresh", payload).1)
  {
    KindsDiffer();
    RefreshIsItsOwn();
  }

  /** A guest cannot refresh a token itself: asked for directly, outside any mock, the
      effect is refused, by the grants or by the dispatch. */
  lemma GuestNeverRefreshes(h: Host, st: State, payload: Json)
    requires st.mode.Record? && st.spanMocks == [] && st.hosted == 0
    ensures var r := Call(h, st, "oauth.refresh", payload).1;
            r.Err? && r.error.kind in {DENIED, "host_only"}
  {
    hide ConsultMock, CallAdmitted, Execute;
    RefreshIsItsOwn();
    var cls := Classify(h, "oauth.refresh", payload);
    if !IsDenied(h, st, "oauth.refresh", payload) {
      PlainlyLive(h, st, "oauth.refresh", payload, cls);
      DirectRefreshFails(h, Bump(st, cls, false), payload);
    }
  }

  lemma DirectRefreshFails(h: Host, st: State, payload: Json)
    requires st.hosted == 0
    ensures var r := Execute(h, st, "oauth.refresh", payload).1; r.Err? && r.error.kind == "host_only"
  {
    RefreshIsItsOwn();
  }

  // --- a batch served slot by slot ---

  /** The state in which item `k` is called. */
  function BeforeItem(h: Host, st: State, name: string, items: seq<Json>, k: nat): State
    requires k <= |items|
  {
    BatchItems(h, st, name, items[..k]).0
  }

  lemma {:induction false} SlotsInOrder(h: Host, st: State, name: string, items: seq<Json>, k: nat)
    requires k < |items|
    ensures |BatchItems(h, st, name, items).1| == |items|
    ensures BatchItems(h, st, name, items).1[k] == SlotOf(Call(h, BeforeItem(h, st, name, items, k), name, items[k]).1)
    decreases |items|
  {
    var st1 := Call(h, st, name, items[0]).0;
    if k > 0 {
      SlotsInOrder(h, st1, name, items[1..], k - 1);
      assert items[..k][1..] == items[1..][..k - 1];
    } else if |items| > 1 {
      SlotsInOrder(h, st1, name, items[1..], 0);
    }
  }

  /** A batch that succeeds answers with one slot per payload, in order, each the
      outcome of calling that payload after the ones before it. */
  lemma BatchAnswersEachPayload(h: Host, st: State, payload: Json, k: nat)
    requires Batch(h, st, payload).1.Ok? && k < |GetArr(payload, "payloads")|
    ensures var name, items := GetStr(payload, "name"), GetArr(payload, "payloads");
            exists slots: seq<Json> ::
              && Batch(h, st, payload).1.value == Results(slots) && |slots| == |items|
              && slots[k] == SlotOf(Call(h, BeforeItem(h, st, name, items, k), name, items[k]).1)
  {
    var name, items := GetStr(payload, "name"), GetArr(payload, "payloads");
    assert Batch(h, st, payload).1.value == Results(BatchItems(h, st, name, items).1);
    SlotsInOrder(h, st, name, items, k);
  }
}
