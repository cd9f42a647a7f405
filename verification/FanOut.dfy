/** What a call leaves in the trace, and when a batch leaves more than itself -- so that a
    strict cursor cannot replay it. */
module FanOut {
  import opened Options
  import opened Json
  import opened Trace
  import opened Mocks
  import opened Pipeline
  import opened Stretch
  import Reentry

  /** A record made inside a batch of the given size: a smaller batch, or no batch. */
  predicate Inner(r: Trace.Record, bound: nat) {
    r.Effect? && r.key == Key(r.name, r.input) && (r.name == "batch" ==> Size(r.input) < bound)
  }

  predicate AllInner(news: seq<Trace.Record>, bound: nat) {
    forall i :: 0 <= i < |news| ==> Inner(news[i], bound)
  }

  predicate EndsPlain(news: seq<Trace.Record>) {
    news != [] ==> news[|news| - 1].Effect? && !news[|news| - 1].emeta.hosted
  }

  /** The records written between two states. */
  ghost predicate Writes(st: State, st': State, bound: nat) {
    && st'.mode == st.mode && st'.hosted == st.hosted && st.log <= st'.log
    && AllInner(st'.log[|st.log|..], bound)
  }

  /** ... where whoever is not host-emitted writes its own record last. */
  ghost predicate Appends(st: State, st': State, bound: nat) {
    Writes(st, st', bound) && (st.hosted == 0 ==> EndsPlain(st'.log[|st.log|..]))
  }

  lemma WritesChain(a: State, b: State, c: State, bound: nat)
    requires Writes(a, b, bound) && Writes(b, c, bound)
    ensures Writes(a, c, bound)
  {
    assert c.log[|a.log|..] == b.log[|a.log|..] + c.log[|b.log|..];
  }

  lemma AppendsOwn(st: State, mid: State, r: Trace.Record, bound: nat)
    requires Writes(st, mid, bound) && Inner(r, bound) && (st.hosted == 0 ==> !r.emeta.hosted)
    ensures Appends(st, Write(mid, r), bound)
  {
    assert Write(mid, r).log[|st.log|..] == mid.log[|st.log|..] + [r];
  }

  lemma AppendsNothing(st: State, st': State, bound: nat)
    requires st'.log == st.log && st'.mode == st.mode && st'.hosted == st.hosted
    ensures Appends(st, st', bound)
  {
  }

  ghost predicate Recording(st: State) { !st.mode.Replay? && st.hosted >= 0 }

  /** In Record and Mock mode and at every nesting: a call's own record comes last, and
      what precedes it are records of smaller batches or of other effects. */
  lemma {:induction false} CallAppends(h: Host, st: State, name: string, given: Json, bound: nat)
    requires Recording(st) && (name == "batch" ==> Size(given) < bound)
    ensures Appends(st, Call(h, st, name, given).0, bound)
    decreases Rank(name, given), 3
  {
    hide CallAdmitted, Execute, ConsultMock, Bump;
    var m := if name == "blob.put" then h.materialize(given) else Ok(given);
    if m.Err? {
      AppendsNothing(st, st, bound);
    } else {
      var payload, cls := m.value, Classify(h, name, m.value);
      if IsDenied(h, st, name, payload) {
        BumpWritesNothing(st, cls, false, bound);
        AppendsOwn(st, Bump(st, cls, false), Call(h, st, name, given).0.log[|st.log|], bound);
      } else {
        AdmittedAppends(h, st, name, payload, cls, bound);
      }
    }
  }

  lemma {:induction false} AdmittedAppends(h: Host, st: State, name: string, payload: Json, cls: Class, bound: nat)
    requires Recording(st) && (name == "batch" ==> Size(payload) < bound)
    ensures Appends(st, CallAdmitted(h, st, name, payload, cls).0, bound)
    decreases Rank(name, payload), 2
  {
    hide Execute, ConsultMock, Bump, Within;
    var (st1, consult) := ConsultMock(st, name, Key(name, payload));
    var end := CallAdmitted(h, st, name, payload, cls).0;
    ConsultKeeps(st, name, Key(name, payload));
    ConsultKeepsDepth(st, name, Key(name, payload));
    BumpWritesNothing(st1, cls, false, bound);
    BumpWritesNothing(st1, cls, true, bound);
    AppendsNothing(st, st1, bound);
    match consult {
      case Serve(slot) =>
        WritesChain(st, st1, Bump(st1, cls, true), bound);
        AppendsOwn(st, Bump(st1, cls, true), end.log[|st.log|], bound);
      case Miss(Fail) =>
        WritesChain(st, st1, Bump(st1, cls, false), bound);
        AppendsOwn(st, Bump(st1, cls, false), end.log[|st.log|], bound);
      case _ =>
        var up := Bump(st1, cls, false);
        ExecuteAppends(h, up, name, payload, bound);
        var (mid, r) := Execute(h, up, name, payload);
        WritesChain(st, st1, up, bound);
        WritesChain(st, up, mid, bound);
        AppendsOwn(st, mid, WriteLive(h, mid, name, payload, cls, consult.Miss?, r).log[|mid.log|], bound);
    }
  }

  lemma ConsultKeepsDepth(st: State, name: string, key: Key)
    ensures var st1 := ConsultMock(st, name, key).0;
            st1 == st.(spanMocks := st1.spanMocks, mockIndex := st1.mockIndex) && |st1.spanMocks| == |st.spanMocks|
  {
    hide Decide, Take, NeverMockable, Counted;
  }

  lemma BumpWritesNothing(st: State, cls: Class, mocked: bool, bound: nat)
    ensures var up := Bump(st, cls, mocked);
            Appends(st, up, bound) && up.log == st.log && up.ran == st.ran && (Recording(st) ==> Recording(up))
  {
    assert st.log[|st.log|..] == [];
  }

  lemma {:induction false} ExecuteAppends(h: Host, st: State, name: string, payload: Json, bound: nat)
    requires Recording(st) && (name == "batch" ==> Size(payload) < bound)
    ensures Writes(st, Execute(h, st, name, payload).0, bound)
    decreases Rank(name, payload), 0
  {
    hide Call, Batch, Writes;
    var st1 := LogRun(st, name, payload);
    assert Writes(st, st1, bound) by { AppendsNothing(st, st1, bound); }
    if IsHttp(name) {
      var a := h.answer(|st.ran|, name, payload);
      if a.refresh.Some? {
        RefreshWrites(h, st1, a.refresh.value, bound);
        WritesChain(st, st1, CallHosted(h, st1, a.refresh.value).0, bound);
      }
    } else if name == "batch" {
      BatchAppends(h, st1, payload, bound);
      WritesChain(st, st1, Batch(h, st1, payload).0, bound);
    }
  }

  lemma {:induction false} RefreshWrites(h: Host, st: State, provider: string, bound: nat)
    requires Recording(st)
    ensures Writes(st, CallHosted(h, st, provider).0, bound)
    decreases 0, 4
  {
    hide Call;
    Reentry.RefreshIsItsOwn();
    CallAppends(h, st.(hosted := st.hosted + 1), "oauth.refresh", Obj([Field("provider", Str(provider))]), bound);
  }

  lemma {:induction false} BatchAppends(h: Host, st: State, payload: Json, bound: nat)
    requires Recording(st) && Size(payload) <= bound
    ensures Appends(st, Batch(h, st, payload).0, bound)
    decreases 1 + Size(payload), 5
  {
    hide Call, BatchItems;
    var name, items := GetStr(payload, "name"), GetArr(payload, "payloads");
    AppendsNothing(st, st, bound);
    if items != [] {
      SizeOfItem(items, 0);
      CallAppends(h, st, name, items[0], bound);
      var st1 := Call(h, st, name, items[0]).0;
      ItemsAppend(h, st1, name, items[1..], bound);
      AppendsChain(st, st1, BatchItems(h, st1, name, items[1..]).0, bound);
    }
  }

  lemma AppendsChain(a: State, b: State, c: State, bound: nat)
    requires Appends(a, b, bound) && Appends(b, c, bound)
    ensures Appends(a, c, bound)
  {
    assert c.log[|a.log|..] == b.log[|a.log|..] + c.log[|b.log|..];
  }

  lemma {:induction false} ItemsAppend(h: Host, st: State, name: string, items: seq<Json>, bound: nat)
    requires Recording(st) && SizeItems(items) < bound
    ensures Appends(st, BatchItems(h, st, name, items).0, bound)
    decreases 2 + SizeItems(items), 4
  {
    hide Call, Appends;
    if items == [] {
      AppendsNothing(st, st, bound);
    } else {
      CallAppends(h, st, name, items[0], bound);
      var st1 := Call(h, st, name, items[0]).0;
      assert Recording(st1) by { AppendsKeepsRecording(st, st1, bound); }
      ItemsAppend(h, st1, name, items[1..], bound);
      AppendsChain(st, st1, BatchItems(h, st1, name, items[1..]).0, bound);
    }
  }

  lemma AppendsKeepsRecording(st: State, st': State, bound: nat)
    requires Recording(st) && Appends(st, st', bound)
    ensures Recording(st')
  {
  }

  // --- the record of a call ---

  /** A record of this effect written in `st`. */
  predicate RecordsEffect(st: State, name: string, payload: Json, cls: Class, hosted: bool, r: Trace.Record) {
    && r.Effect? && r.name == name && r.input == payload && r.key == Key(name, payload)
    && r.cell == st.cell && r.span == TopId(st) && r.emeta.cls == cls && r.emeta.hosted == hosted
  }

  predicate Materialises(h: Host, name: string, given: Json) { name == "blob.put" ==> h.materialize(given).Ok? }

  function Payload(h: Host, name: string, given: Json): Json
    requires Materialises(h, name, given)
  {
    if name == "blob.put" then h.materialize(given).value else given
  }

  /** `st'` ends in this effect's own record. */
  predicate OwnsLast(st: State, st': State, name: string, payload: Json, cls: Class) {
    && |st'.log| > |st.log| && st.log <= st'.log
    && RecordsEffect(st, name, payload, cls, false, st'.log[|st'.log| - 1])
  }

  /** Whatever becomes of it, a guest's call whose payload materialises leaves its own
      record last. */
  lemma CallOwnsLast(h: Host, st: State, name: string, given: Json)
    requires !st.mode.Replay? && st.hosted == 0 && Materialises(h, name, given)
    ensures var payload := Payload(h, name, given);
            OwnsLast(st, Call(h, st, name, given).0, name, payload, Classify(h, name, payload))
  {
    hide CallAdmitted, Classify, OwnsLast, WriteRefusal, Denial;
    var payload := Payload(h, name, given);
    var cls := Classify(h, name, payload);
    if IsDenied(h, st, name, payload) {
      RefusalIsOwn(st, name, payload, cls, Denial(CapOf(h, name, payload), name), Unmocked);
    } else {
      AdmittedOwnsLast(h, st, name, payload, cls);
    }
  }

  lemma RefusalIsOwn(st: State, name: string, payload: Json, cls: Class, f: Failure, mark: MockMark)
    ensures OwnsLast(st, WriteRefusal(st, name, payload, cls, f, mark), name, payload, cls)
  {
    BumpKeepsDepth(st, cls);
  }

  lemma AnswerIsOwn(st: State, name: string, payload: Json, cls: Class, rec: Outcome, mark: MockMark)
    ensures OwnsLast(st, WriteMocked(Bump(st, cls, true), name, payload, Key(name, payload), rec,
                                     EffectMeta(None, true, cls, false, None, mark)), name, payload, cls)
  {
    assert TopId(Bump(st, cls, true)) == TopId(st);
  }

  lemma LiveIsOwn(h: Host, st: State, name: string, payload: Json, cls: Class, unmatched: bool)
    requires !st.mode.Replay? && st.hosted == 0
    ensures OwnsLast(st, CallLive(h, st, name, payload, cls, unmatched).0, name, payload, cls)
  {
    hide Execute, Within, Bump, RecordedOutput;
    var up := Bump(st, cls, false);
    BumpKeepsDepth(st, cls);
    ExecuteIsStretch(h, up, name, payload);
    StretchKeepsPlace(up, Execute(h, up, name, payload).0);
  }

  lemma AdmittedOwnsLast(h: Host, st: State, name: string, payload: Json, cls: Class)
    requires !st.mode.Replay? && st.hosted == 0
    ensures OwnsLast(st, CallAdmitted(h, st, name, payload, cls).0, name, payload, cls)
  {
    hide ConsultMock, CallLive, WriteRefusal, WriteMocked, Bump, OwnsLast;
    var (st1, consult) := ConsultMock(st, name, Key(name, payload));
    ConsultKeepsDepth(st, name, Key(name, payload));
    match consult {
      case Serve(slot) => AnswerIsOwn(st1, name, payload, cls, slot.rec, ServedFrom(slot.provenance));
      case Miss(Fail) => RefusalIsOwn(st1, name, payload, cls, NoMock(name), Unmatched);
      case _ => LiveIsOwn(h, st1, name, payload, cls, consult.Miss?);
    }
    OwnedAlike(st, st1, CallAdmitted(h, st, name, payload, cls).0, name, payload, cls);
  }

  lemma OwnedAlike(st: State, st1: State, st': State, name: string, payload: Json, cls: Class)
    requires st1.log == st.log && st1.cell == st.cell && st1.stack == st.stack
    ensures OwnsLast(st1, st', name, payload, cls) ==> OwnsLast(st, st', name, payload, cls)
  {
  }

  lemma StretchKeepsPlace(a: State, b: State)
    requires Within(a, b)
    ensures a.log <= b.log && b.cell == a.cell && b.hosted == a.hosted && TopId(b) == TopId(a)
  {
    SameTop(a, b);
  }

  // --- batches that leave only themselves ---

  lemma BatchIsItsOwn()
    ensures !IsHttp("batch") && "batch" !in {"oauth.refresh", "blob.read", "blob.put", "kernel.boot"}
  {
    assert "batch"[0] != "http."[0] && "batch"[1] != "blob.put"[1];
    assert |"batch"| != |"oauth.refresh"| && |"batch"| != |"blob.read"| && |"batch"| != |"kernel.boot"|;
  }

  lemma BatchExecutes(h: Host, st: State, payload: Json)
    ensures Execute(h, st, "batch", payload) == Batch(h, LogRun(st, "batch", payload), payload)
  {
    hide Batch;
    BatchIsItsOwn();
  }

  predicate NoneMaterialises(h: Host, name: string, items: seq<Json>) {
    forall i | 0 <= i < |items| :: !Materialises(h, name, items[i])
  }

  /** No item of the batch comes as far as a record: there is none, or none materialises,
      or the first does not and takes the whole batch down as unknown. */
  predicate NoItemRecords(h: Host, payload: Json) {
    var name, items := GetStr(payload, "name"), GetArr(payload, "payloads");
    || NoneMaterialises(h, name, items)
    || (items != [] && name == "blob.put" && Reentry.IsUnknown(h.materialize(items[0])))
  }

  /** The call was answered or refused by a mock index. */
  predicate Met(c: Consult) { c.Serve? || (c.Miss? && c.policy.Fail?) }

  /** The batch is denied, answered or refused by a mock, or has no item to record. */
  predicate Alone(h: Host, st: State, payload: Json) {
    || IsDenied(h, st, "batch", payload)
    || NoItemRecords(h, payload)
    || Met(ConsultMock(st, "batch", Key("batch", payload)).1)
  }

  lemma FailsToMaterialise(h: Host, st: State, name: string, item: Json)
    requires !Materialises(h, name, item)
    ensures Call(h, st, name, item) == (st, Err(h.materialize(item).error))
  {
  }

  lemma {:induction false} NoItemsTouch(h: Host, st: State, name: string, items: seq<Json>)
    requires NoneMaterialises(h, name, items)
    ensures BatchItems(h, st, name, items).0 == st
  {
    hide Call;
    if items != [] {
      assert !Materialises(h, name, items[0]);
      FailsToMaterialise(h, st, name, items[0]);
      NoItemsTouch(h, st, name, items[1..]);
    }
  }

  lemma UntouchedBatch(h: Host, st: State, payload: Json)
    requires NoItemRecords(h, payload)
    ensures Batch(h, st, payload).0 == st
  {
    hide Call, BatchItems;
    var name, items := GetStr(payload, "name"), GetArr(payload, "payloads");
    if items != [] {
      assert !Materialises(h, name, items[0]);
      FailsToMaterialise(h, st, name, items[0]);
      if NoneMaterialises(h, name, items) { NoItemsTouch(h, st, name, items[1..]); }
    }
  }

  lemma {:induction false} SomeItemGrows(h: Host, st: State, name: string, items: seq<Json>)
    requires !st.mode.Replay? && st.hosted == 0 && !NoneMaterialises(h, name, items)
    ensures |BatchItems(h, st, name, items).0.log| > |st.log|
    decreases |items|
  {
    hide Call, Within;
    var st1 := Call(h, st, name, items[0]).0;
    CallIsStretch(h, st, name, items[0]);
    StretchKeeps(st, st1);
    ItemsAreStretch(h, st1, name, items[1..]);
    StretchKeeps(st1, BatchItems(h, st1, name, items[1..]).0);
    if Materialises(h, name, items[0]) {
      CallOwnsLast(h, st, name, items[0]);
    } else {
      assert exists i | 0 <= i < |items[1..]| :: Materialises(h, name, items[1..][i]) by {
        var i :| 0 <= i < |items| && Materialises(h, name, items[i]);
        assert items[1..][i - 1] == items[i];
      }
      SomeItemGrows(h, st1, name, items[1..]);
    }
  }

  lemma StretchKeeps(a: State, b: State)
    requires Within(a, b)
    ensures a.log <= b.log && b.mode == a.mode && b.hosted == a.hosted
  {
  }

  lemma TouchedBatch(h: Host, st: State, payload: Json)
    requires !st.mode.Replay? && st.hosted == 0 && !NoItemRecords(h, payload)
    ensures |Batch(h, st, payload).0.log| > |st.log|
    ensures Batch(h, st, payload).1.Ok? || Reentry.IsUnknown(Batch(h, st, payload).1)
  {
    hide Call, BatchItems, Within;
    var name, items := GetStr(payload, "name"), GetArr(payload, "payloads");
    var (st1, first) := Call(h, st, name, items[0]);
    CallIsStretch(h, st, name, items[0]);
    StretchKeeps(st, st1);
    ItemsAreStretch(h, st1, name, items[1..]);
    StretchKeeps(st1, BatchItems(h, st1, name, items[1..]).0);
    if Materialises(h, name, items[0]) {
      CallOwnsLast(h, st, name, items[0]);
    } else {
      FailsToMaterialise(h, st, name, items[0]);
      assert exists i | 0 <= i < |items[1..]| :: Materialises(h, name, items[1..][i]) by {
        var i :| 0 <= i < |items| && Materialises(h, name, items[i]);
        assert items[1..][i - 1] == items[i];
      }
      SomeItemGrows(h, st1, name, items[1..]);
    }
  }

  /** A guest's batch, in Record or Mock mode, leaves no record but its own exactly when
      it is denied, answered or refused by a mock, or has no item that materialises. */
  lemma BatchIsAlone(h: Host, st: State, payload: Json)
    requires !st.mode.Replay? && st.hosted == 0
    ensures |Call(h, st, "batch", payload).0.log| <= |st.log| + 1 <==> Alone(h, st, payload)
  {
    hide CallAdmitted, NoItemRecords, Bump, ConsultMock;
    BatchIsItsOwn();
    var cls := Classify(h, "batch", payload);
    if IsDenied(h, st, "batch", payload) {
      BumpWritesNothing(st, cls, false, 0);
    } else {
      AdmittedBatchIsAlone(h, st, payload, cls);
    }
  }

  lemma AdmittedBatchIsAlone(h: Host, st: State, payload: Json, cls: Class)
    requires !st.mode.Replay? && st.hosted == 0
    ensures |CallAdmitted(h, st, "batch", payload, cls).0.log| <= |st.log| + 1
            <==> NoItemRecords(h, payload) || Met(ConsultMock(st, "batch", Key("batch", payload)).1)
  {
    hide ConsultMock, CallLive, Bump, NoItemRecords;
    var (st1, consult) := ConsultMock(st, "batch", Key("batch", payload));
    ConsultKeepsDepth(st, "batch", Key("batch", payload));
    BumpWritesNothing(st1, cls, false, 0);
    BumpWritesNothing(st1, cls, true, 0);
    LiveBatchIsAlone(h, st1, payload, cls, false);
    LiveBatchIsAlone(h, st1, payload, cls, true);
    match consult
    case Serve(slot) =>
    case Miss(Fail) =>
    case Miss(Live) =>
    case Plain =>
  }

  lemma LiveBatchIsAlone(h: Host, st: State, payload: Json, cls: Class, unmatched: bool)
    requires !st.mode.Replay? && st.hosted == 0
    ensures |CallLive(h, st, "batch", payload, cls, unmatched).0.log| <= |st.log| + 1 <==> NoItemRecords(h, payload)
  {
    hide Execute, Bump, NoItemRecords, Batch;
    var up := Bump(st, cls, false);
    BumpWritesNothing(st, cls, false, 0);
    BatchExecutes(h, up, payload);
    if NoItemRecords(h, payload) {
      UntouchedBatch(h, LogRun(up, "batch", payload), payload);
    } else {
      TouchedBatch(h, LogRun(up, "batch", payload), payload);
    }
  }

  lemma BumpKeepsDepth(st: State, cls: Class)
    ensures var up := Bump(st, cls, false);
            up == st.(mutations := up.mutations, stack := up.stack) && TopId(up) == TopId(st)
  {
  }

  /** ... in Record mode outside any mocked span: denied, or without such an item. */
  lemma PlainBatchIsAlone(h: Host, st: State, payload: Json)
    requires st.mode.Record? && st.spanMocks == []
    ensures Alone(h, st, payload) <==> IsDenied(h, st, "batch", payload) || NoItemRecords(h, payload)
  {
  }
}
