/** What a live call gives back and writes down, effect by effect. */
module Dispatch {
  import opened Options
  import opened Json
  import opened Trace
  import opened Mocks
  import opened Pipeline
  import opened FanOut
  import opened CallRecords
  import Globs
  import Reentry

  /** The effects the host implements in one step, by name. */
  const WORLDLY: set<string> := {
    "config.get", "config.set", "runtime.get", "mailbox.drain", "time.now", "fuel.state", "uuid4", "sleep", "env.get",
    "oauth.connect", "oauth.status", "oauth.disconnect", "module.resolve", "bao.status", "trace.effects_of",
    "trace.effect_get", "trace.runs", "trace.stats", "trace.query"}

  lemma WorldlyIsPlain(name: string)
    requires name in WORLDLY
    ensures !IsHttp(name) && Known(name)
    ensures name !in {"batch", "oauth.refresh", "blob.read", "blob.put", "kernel.boot"}
  {
    assert "http."[0] == 'h' && "batch"[0] == 'b' && "blob.read"[0] == 'b' && "blob.put"[0] == 'b'
        && "kernel.boot"[0] == 'k';
    assert "bao.status"[2] == 'o' && "batch"[2] == 't' && "blob.read"[2] == 'o' && "bao.status"[1] == 'a'
        && "blob.read"[1] == 'l';
    assert "blob.put"[1] == 'l';
    assert "config.get"[0] == 'c' && "config.set"[0] == 'c' && "runtime.get"[0] == 'r' && "mailbox.drain"[0] == 'm';
    assert "time.now"[0] == 't' && "fuel.state"[0] == 'f' && "uuid4"[0] == 'u' && "sleep"[0] == 's'
        && "env.get"[0] == 'e';
    assert "module.resolve"[0] == 'm' && "bao.status"[0] == 'b' && "trace.effects_of"[0] == 't'
        && "trace.runs"[0] == 't';
    assert "trace.effect_get"[0] == 't' && "trace.stats"[0] == 't' && "trace.query"[0] == 't';
    assert "oauth.refresh"[6] == 'r' && "oauth.connect"[6] == 'c' && "oauth.status"[6] == 's'
        && "oauth.disconnect"[6] == 'd';
    assert "oauth.refresh"[0] == 'o' && "oauth.connect"[0] == 'o' && "oauth.status"[0] == 'o'
        && "oauth.disconnect"[0] == 'o';
  }

  /** No effect of the host. */
  predicate Unheard(name: string) {
    && !("http." <= name) && name !in WORLDLY
    && name !in {"batch", "oauth.refresh", "blob.read", "blob.put", "kernel.boot"}
  }

  /** Where nothing stands between a guest's call and the world. */
  predicate Open(st: State) { st.mode.Record? && st.spanMocks == [] && st.grants.None? && st.hosted == 0 }

  lemma OpenCall(h: Host, st: State, name: string, payload: Json)
    requires Open(st) && name != "blob.put"
    ensures Call(h, st, name, payload) == CallLive(h, st, name, payload, Classify(h, name, payload), false)
  {
    hide CallLive, Classify;
    Reentry.PlainlyLive(h, st, name, payload, Classify(h, name, payload));
  }

  lemma OpenBump(st: State, cls: Class)
    ensures var up := Bump(st, cls, false);
            && up.log == st.log && up.ran == st.ran && up.hosted == st.hosted && up.cell == st.cell
            && up.mode == st.mode && TopId(up) == TopId(st)
  {
    BumpKeepsDepth(st, cls);
  }

  lemma PlainExecution(h: Host, st: State, name: string, payload: Json)
    requires name in WORLDLY || Unheard(name)
    ensures Execute(h, st, name, payload).0 == LogRun(st, name, payload)
    ensures name in WORLDLY ==> Execute(h, st, name, payload).1 == h.answer(|st.ran|, name, payload).result
    ensures Unheard(name) ==>
              Execute(h, st, name, payload).1 == Err(Failure("unknown_effect", "no such effect: " + name))
  {
    hide CallHosted, Batch;
    if name in WORLDLY { WorldlyIsPlain(name); }
  }

  /** One record of one plain call: the effect's name, input, outcome and time, in the
      current cell and span. */
  function PlainRecord(h: Host, st: State, name: string, payload: Json, cls: Class,
                       reply: Result<Json, Failure>): Trace.Record {
    Effect(name, st.cell, payload, Key(name, payload), if reply.Ok? then reply.value else Null,
           if reply.Ok? then None else Some(reply.error),
           EffectMeta(Some(h.elapsed(|st.log|)), false, cls, false, None, Unmocked), TopId(st))
  }

  lemma LiveWrites(h: Host, st: State, ran: State, name: string, payload: Json, cls: Class,
                   reply: Result<Json, Failure>)
    requires st.hosted == 0 && name != "blob.read" && ran == Bump(st, cls, false).(ran := ran.ran)
    ensures WriteLive(h, ran, name, payload, cls, false, reply).log
            == st.log + [PlainRecord(h, st, name, payload, cls, reply)]
  {
    hide Bump;
    OpenBump(st, cls);
  }

  /** Each of these effects is answered by the world, run once and recorded once. */
  lemma AnsweredByTheWorld(h: Host, st: State, name: string, payload: Json) returns (cls: Class)
    requires Open(st) && name in WORLDLY
    ensures var answer := h.answer(|st.ran|, name, payload).result;
            var (st', reply) := Call(h, st, name, payload);
            && reply == answer && st'.ran == st.ran + [Execution(name, payload, false)]
            && st'.log == st.log + [PlainRecord(h, st, name, payload, cls, answer)]
  {
    hide Call, Execute, CallLive, Classify, Bump, WriteLive, PlainRecord;
    WorldlyIsPlain(name);
    cls := Classify(h, name, payload);
    OpenCall(h, st, name, payload);
    OpenBump(st, cls);
    PlainExecution(h, Bump(st, cls, false), name, payload);
    LiveIs(h, st, name, payload, cls);
    LiveWrites(h, st, LogRun(Bump(st, cls, false), name, payload), name, payload, cls,
               h.answer(|st.ran|, name, payload).result);
  }

  lemma LiveIs(h: Host, st: State, name: string, payload: Json, cls: Class)
    ensures var (st2, r) := Execute(h, Bump(st, cls, false), name, payload);
            && CallLive(h, st, name, payload, cls, false) == (WriteLive(h, st2, name, payload, cls, false, r), r)
            && WriteLive(h, st2, name, payload, cls, false, r).ran == st2.ran
  {
    hide Execute;
  }

  /** And every other name is no effect at all. */
  lemma OthersAreUnknown(h: Host, st: State, name: string, payload: Json)
    requires Open(st) && Unheard(name)
    ensures var reply := Call(h, st, name, payload).1; reply.Err? && reply.error.kind == "unknown_effect"
  {
    hide Call, Execute, CallLive, Classify, Bump, WriteLive;
    assert |"blob.put"| == 8;
    OpenCall(h, st, name, payload);
    var cls := Classify(h, name, payload);
    PlainExecution(h, Bump(st, cls, false), name, payload);
    LiveIs(h, st, name, payload, cls);
  }

  /** A put gives back the reference its payload came down to. */
  lemma PutGivesTheRef(h: Host, st: State, given: Json, payload: Json, ref: Json)
    requires Open(st) && h.materialize(given) == Ok(payload) && Get(payload, "ref") == Some(ref)
    ensures Call(h, st, "blob.put", given).1 == Ok(ref)
  {
    hide CallAdmitted, Execute, Classify, Bump, WriteLive, CallLive;
    var cls := Classify(h, "blob.put", payload);
    Reentry.PlainlyLive(h, st, "blob.put", payload, cls);
    LiveIs(h, st, "blob.put", payload, cls);
    PutExecutes(h, Bump(st, cls, false), payload, ref);
  }

  lemma PutExecutes(h: Host, st: State, payload: Json, ref: Json)
    requires Get(payload, "ref") == Some(ref)
    ensures Execute(h, st, "blob.put", payload).1 == Ok(ref)
  {
    hide CallHosted, Batch;
    assert "blob.put"[0] == 'b' && "http."[0] == 'h' && |"batch"| == 5 && |"oauth.refresh"| == 13 && |"blob.read"| == 9;
    assert |"blob.put"| == 8;
  }

  /** A token refresh on behalf of an http call leaves a record of its own, marked as the
      host's, with the credential it is for and the failure it ended in. */
  lemma RefreshNamesItsCredential(h: Host, st: State, provider: string)
    requires Open(st)
    ensures CallHosted(h, st, provider).0.hosted == st.hosted && CallHosted(h, st, provider).0.mode == st.mode
    ensures var log := CallHosted(h, st, provider).0.log;
            && |log| == |st.log| + 1 && st.log <= log
            && var r := log[|st.log|];
               && r.Effect? && r.name == "oauth.refresh" && r.input == Obj([Field("provider", Str(provider))])
               && r.emeta.hosted && r.emeta.credential == Some("connector.oauth." + provider)
               && r.emeta.mock == Unmocked
               && r.error == match CallHosted(h, st, provider).1 case Ok(_) => None case Err(f) => Some(f)
  {
    hide CallAdmitted, Bump, Classify, Execute, CallLive;
    Reentry.RefreshIsItsOwn();
    var payload := RefreshPayload(provider);
    var inner := st.(hosted := 1);
    var cls := Classify(h, "oauth.refresh", payload);
    Reentry.PlainlyLive(h, inner, "oauth.refresh", payload, cls);
    LiveIs(h, inner, "oauth.refresh", payload, cls);
    OpenBump(inner, cls);
    RefreshOnlyRuns(h, Bump(inner, cls, false), payload);
    assert Lookup([Field("provider", Str(provider))], "provider") == Some(Str(provider));
    assert Call(h, inner, "oauth.refresh", payload) == CallAdmitted(h, inner, "oauth.refresh", payload, cls);
  }

  // --- misses and batches ---

  /** A mock run whose index admits the call and has no answer for it. */
  predicate Missing(st: State, name: string, key: Key) {
    && st.mode.Mock? && st.spanMocks == [] && st.grants.None? && st.hosted == 0 && st.mockIndex.Some?
    && Decide(st.mockIndex.value, name, Facades(st.stack)).IsMockable()
    && Queue(st.mockIndex.value, name, Exact(key)) == [] && Queue(st.mockIndex.value, name, Wildcard) == []
  }

  lemma MissConsults(st: State, name: string, key: Key) returns (st1: State)
    requires Missing(st, name, key)
    ensures st1 == st.(mockIndex := st1.mockIndex)
    ensures ConsultMock(st, name, key) == (st1, Miss(st.mockIndex.value.unmatched))
  {
    hide Decide, Counted, Take;
    var idx, d := st.mockIndex.value, Decide(st.mockIndex.value, name, Facades(st.stack));
    MissTakesNothing(idx, d, name, key);
    MockableIsNoPlumbing(idx, name, Facades(st.stack));
    st1 := st.(mockIndex := Some(Counted(idx, d)));
  }

  /** Where the mock lets misses run, the effect does, and its record says it was a miss. */
  lemma LiveMissIsMarked(h: Host, st: State, name: string, payload: Json)
    requires name in WORLDLY && Missing(st, name, Key(name, payload)) && st.mockIndex.value.unmatched == Live
    ensures var (st', reply) := Call(h, st, name, payload);
            && |st'.log| == |st.log| + 1 && st'.log[|st.log|].Effect? && st'.log[|st.log|].emeta.mock == Unmatched
            && !st'.log[|st.log|].emeta.mocked && reply == h.answer(|st.ran|, name, payload).result
            && st'.ran == st.ran + [Execution(name, payload, false)]
  {
    hide Execute, Classify, Bump, ConsultMock, Missing;
    WorldlyIsPlain(name);
    var cls := Classify(h, name, payload);
    assert st.mode.Mock? && st.grants.None? && st.hosted == 0 by { RunsMocked(st, name, Key(name, payload)); }
    var st1 := MissConsults(st, name, Key(name, payload));
    OpenBump(st1, cls);
    PlainExecution(h, Bump(st1, cls, false), name, payload);
    assert Call(h, st, name, payload) == CallAdmitted(h, st, name, payload, cls);
    assert CallAdmitted(h, st, name, payload, cls) == CallLive(h, st1, name, payload, cls, true);
  }

  lemma RunsMocked(st: State, name: string, key: Key)
    requires Missing(st, name, key)
    ensures st.mode.Mock? && st.grants.None? && st.hosted == 0
  {
  }

  /** Where it does not, the call fails, is recorded as a miss, and nothing runs. */
  lemma FailedMissIsMarked(h: Host, st: State, name: string, payload: Json)
    requires name in WORLDLY && Missing(st, name, Key(name, payload)) && st.mockIndex.value.unmatched == Fail
    ensures var (st', reply) := Call(h, st, name, payload);
            && |st'.log| == |st.log| + 1 && st'.log[|st.log|].Effect? && st'.log[|st.log|].emeta.mock == Unmatched
            && reply.Err? && reply.error.kind == "mock_unmatched" && st'.log[|st.log|].error == Some(reply.error)
            && st'.ran == st.ran
  {
    hide CallLive, Classify, Bump, ConsultMock, Missing;
    WorldlyIsPlain(name);
    var cls := Classify(h, name, payload);
    RunsMocked(st, name, Key(name, payload));
    var st1 := MissConsults(st, name, Key(name, payload));
    OpenBump(st1, cls);
    assert Call(h, st, name, payload) == CallAdmitted(h, st, name, payload, cls);
  }

  lemma MissTakesNothing(idx: MockIndex, d: Decision, name: string, key: Key)
    requires Queue(idx, name, Exact(key)) == [] == Queue(idx, name, Wildcard)
    ensures Take(Counted(idx, d), name, key) == (Counted(idx, d), None) && Counted(idx, d).unmatched == idx.unmatched
  {
  }

  lemma MockableIsNoPlumbing(idx: MockIndex, name: string, facades: seq<string>)
    requires Decide(idx, name, facades).IsMockable()
    ensures !NeverMockable(name)
  {
  }

  /** The slot of a failed item tells the failure's type and message. */
  lemma FailedSlotSaysWhy(f: Failure)
    ensures var error := Get(SlotOf(Err(f)), "error");
            && error.Some? && Get(error.value, "type") == Some(Str(f.kind))
            && Get(error.value, "message") == Some(Str(f.message))
  {
    assert |"type"| == 4 && |"message"| == 7;
    var fields := [Field("message", Str(f.message)), Field("type", Str(f.kind))];
    assert fields[1..] == [Field("type", Str(f.kind))];
    assert Lookup(fields[1..], "type") == Some(Str(f.kind));
    assert Lookup(fields, "type") == Lookup(fields[1..], "type");
    assert Lookup([Field("error", Obj(fields))], "error") == Some(Obj(fields));
  }

  /** A batch answers under "results": slot k is what item k gives when it is called after
      the ones before it -- its value, or an "error" with the type and the message. */
  lemma BatchReplies(h: Host, st: State, payload: Json, k: nat)
    requires Batch(h, st, payload).1.Ok? && k < |GetArr(payload, "payloads")|
    ensures var name, items := GetStr(payload, "name"), GetArr(payload, "payloads");
            var results := Get(Batch(h, st, payload).1.value, "results");
            && results.Some? && results.value.Arr? && |results.value.items| == |items|
            && var r := Call(h, Reentry.BeforeItem(h, st, name, items, k), name, items[k]).1;
               (r.Ok? ==> results.value.items[k] == r.value)
               && (r.Err? ==>
                     var error := Get(results.value.items[k], "error");
                     && error.Some? && Get(error.value, "type") == Some(Str(r.error.kind))
                     && Get(error.value, "message") == Some(Str(r.error.message)))
  {
    hide Batch, Call, Reentry.BeforeItem;
    var name, items := GetStr(payload, "name"), GetArr(payload, "payloads");
    Reentry.BatchAnswersEachPayload(h, st, payload, k);
    var slots :| Batch(h, st, payload).1.value == Results(slots) && |slots| == |items|
                 && slots[k] == SlotOf(Call(h, Reentry.BeforeItem(h, st, name, items, k), name, items[k]).1);
    assert Lookup([Field("results", Arr(slots))], "results") == Some(Arr(slots));
    var r := Call(h, Reentry.BeforeItem(h, st, name, items, k), name, items[k]).1;
    if r.Err? { FailedSlotSaysWhy(r.error); }
  }

  // --- filters ---

  /** A mock run whose `except` has a glob for the effect, or for any of the spans around it,
      however far out: the effect runs. */
  lemma ExceptedRunsLive(h: Host, st: State, name: string, payload: Json, glob: string, around: string)
    requires name in WORLDLY && st.mode.Mock? && st.spanMocks == [] && st.grants.None? && st.hosted == 0
    requires st.mockIndex.Some? && glob in st.mockIndex.value.except && Globs.Matches(glob, around)
    requires around == name || exists i | 0 <= i < |st.stack| :: st.stack[i].name == around
    ensures var (st', reply) := Call(h, st, name, payload);
            reply == h.answer(|st.ran|, name, payload).result && st'.ran == st.ran + [Execution(name, payload, false)]
  {
    hide Execute, Classify, Bump, Decide, CallLive;
    WorldlyIsPlain(name);
    var cls := Classify(h, name, payload);
    FacadeIsAround(st.stack, around);
    MockableMeans(st.mockIndex.value, name, Facades(st.stack));
    var st1 := ConsultMock(st, name, Key(name, payload)).0;
    assert st1 == st.(mockIndex := st1.mockIndex);
    OpenBump(st1, cls);
    PlainExecution(h, Bump(st1, cls, false), name, payload);
    assert Call(h, st, name, payload) == CallAdmitted(h, st, name, payload, cls);
    assert CallAdmitted(h, st, name, payload, cls) == CallLive(h, st1, name, payload, cls, false);
    LiveIs(h, st1, name, payload, cls);
  }

  lemma FacadeIsAround(stack: seq<Frame>, around: string)
    ensures (exists i | 0 <= i < |stack| :: stack[i].name == around) <==> around in Facades(stack)
  {
    if i :| 0 <= i < |stack| && stack[i].name == around { assert Facades(stack)[i] == around; }
  }

  // --- boots, reads and http calls ---

  /** A boot gives its payload back. */
  lemma BootEchoes(h: Host, st: State, payload: Json)
    requires Open(st)
    ensures Call(h, st, "kernel.boot", payload).1 == Ok(payload)
  {
    hide Execute, CallLive, Classify, Bump, WriteLive;
    assert |"kernel.boot"| == 11 && |"blob.put"| == 8;
    OpenCall(h, st, "kernel.boot", payload);
    var cls := Classify(h, "kernel.boot", payload);
    LiveIs(h, st, "kernel.boot", payload, cls);
    BootExecutes(h, Bump(st, cls, false), payload);
  }

  lemma BootExecutes(h: Host, st: State, payload: Json)
    ensures Execute(h, st, "kernel.boot", payload).1 == Ok(payload)
  {
    hide CallHosted, Batch;
    assert "kernel.boot"[0] == 'k' && "http."[0] == 'h' && "batch"[0] == 'b' && "oauth.refresh"[0] == 'o';
    assert "blob.read"[0] == 'b' && "blob.put"[0] == 'b';
  }

  /** A blob read gives what the directory has, and records of it no more than its "bytes". */
  lemma ReadsTheDirectory(h: Host, st: State, payload: Json)
    requires Open(st)
    ensures var (st', reply) := Call(h, st, "blob.read", payload);
            && reply == h.blobRead(payload) && |st'.log| == |st.log| + 1 && st'.log[|st.log|].Effect?
            && (reply.Ok? ==>
                  st'.log[|st.log|].output ==
                  Obj([Field("bytes", match Get(reply.value, "bytes") case Some(bytes) => bytes case None => Null)]))
            && st'.log[|st.log|].error == (if reply.Ok? then None else Some(reply.error))
  {
    hide Execute, CallLive, Classify, Bump;
    assert |"blob.read"| == 9 && |"blob.put"| == 8;
    OpenCall(h, st, "blob.read", payload);
    var cls := Classify(h, "blob.read", payload);
    OpenBump(st, cls);
    LiveIs(h, st, "blob.read", payload, cls);
    ReadExecutes(h, Bump(st, cls, false), payload);
  }

  lemma ReadExecutes(h: Host, st: State, payload: Json)
    ensures Execute(h, st, "blob.read", payload) == (LogRun(st, "blob.read", payload), h.blobRead(payload))
  {
    hide CallHosted, Batch;
    assert "blob.read"[0] == 'b' && "http."[0] == 'h' && |"batch"| == 5 && |"blob.read"| == 9 && "oauth.refresh"[0] == 'o';
  }

  /** An http call that needs no refresh is answered by the world. One that does leaves the
      refresh's record before its own, and fails as that did if it did. */
  lemma HttpAnswers(h: Host, st: State, verb: string, payload: Json)
    requires Open(st)
    ensures var name := "http." + verb;
            var a := h.answer(|st.ran|, name, payload);
            var (st', reply) := Call(h, st, name, payload);
            var refreshed := if a.refresh.Some? then 1 else 0;
            && |st'.log| == |st.log| + refreshed + 1 && st.log <= st'.log
            && (a.refresh.None? ==> reply == a.result)
            && (a.refresh.Some? ==>
                  var r := st'.log[|st.log|];
                  && r.Effect? && r.name == "oauth.refresh" && r.emeta.hosted
                  && reply == if r.error.Some? then Err(r.error.value) else a.result)
            && var own := st'.log[|st'.log| - 1];
               && own.Effect? && own.name == name && own.input == payload && !own.emeta.hosted
               && own.output == (if reply.Ok? then reply.value else Null)
               && own.error == (if reply.Ok? then None else Some(reply.error))
  {
    hide Execute, CallLive, Classify, Bump;
    var name := "http." + verb;
    assert "http."[0] == 'h' && name[0] == 'h' && "blob.put"[0] == 'b' && "blob.read"[0] == 'b';
    OpenCall(h, st, name, payload);
    var cls := Classify(h, name, payload);
    OpenBump(st, cls);
    BumpOpens(st, cls);
    LiveIs(h, st, name, payload, cls);
    HttpExecutes(h, Bump(st, cls, false), name, payload);
  }

  lemma BumpOpens(st: State, cls: Class)
    requires Open(st)
    ensures Open(Bump(st, cls, false))
  {
  }

  lemma HttpExecutes(h: Host, st: State, name: string, payload: Json)
    requires Open(st) && IsHttp(name)
    ensures var a := h.answer(|st.ran|, name, payload);
            var (st', r) := Execute(h, st, name, payload);
            && st'.hosted == 0 && st'.mode == st.mode
            && (a.refresh.None? ==> r == a.result && st'.log == st.log)
            && (a.refresh.Some? ==>
                  && |st'.log| == |st.log| + 1 && st.log <= st'.log
                  && var refresh := st'.log[|st.log|];
                     && refresh.Effect? && refresh.name == "oauth.refresh" && refresh.emeta.hosted
                     && r == if refresh.error.Some? then Err(refresh.error.value) else a.result)
  {
    hide CallHosted, Batch;
    var a := h.answer(|st.ran|, name, payload);
    if a.refresh.Some? { RefreshNamesItsCredential(h, LogRun(st, name, payload), a.refresh.value); }
  }

  // --- answers ---

  /** A mock run whose index has an answer for the call next. */
  predicate Answering(st: State, name: string, key: Key, slot: Slot) {
    && st.mode.Mock? && st.spanMocks == [] && st.grants.None? && st.hosted == 0 && st.mockIndex.Some?
    && Decide(st.mockIndex.value, name, Facades(st.stack)).IsMockable()
    && var exact, any := Queue(st.mockIndex.value, name, Exact(key)), Queue(st.mockIndex.value, name, Wildcard);
       (exact != [] && exact[0] == slot) || (exact == [] && any != [] && any[0] == slot)
  }

  /** It is given, recorded as a mock's answer with where it came from, and nothing runs. */
  lemma MockAnswers(h: Host, st: State, name: string, payload: Json, slot: Slot)
    requires name != "blob.put" && Answering(st, name, Key(name, payload), slot)
    ensures var (st', reply) := Call(h, st, name, payload);
            && st'.ran == st.ran && |st'.log| == |st.log| + 1
            && reply == (if slot.rec.error.Some? then Err(slot.rec.error.value) else Ok(slot.rec.output))
            && var r := st'.log[|st.log|];
               && r.Effect? && r.name == name && r.input == payload
               && r.output == slot.rec.output && r.error == slot.rec.error
               && r.emeta.mocked && !r.emeta.hosted && r.emeta.mock == ServedFrom(slot.provenance)
  {
    hide Classify, Decide, Bump, CallLive;
    var cls := Classify(h, name, payload);
    var idx, d := st.mockIndex.value, Decide(st.mockIndex.value, name, Facades(st.stack));
    MockableIsNoPlumbing(idx, name, Facades(st.stack));
    var (st1, consult) := ConsultMock(st, name, Key(name, payload));
    assert st1 == st.(mockIndex := st1.mockIndex) && consult == Serve(slot) by { AnswerTaken(idx, d, name, Key(name, payload)); }
    MockedBump(st1, cls);
    assert Call(h, st, name, payload) == CallAdmitted(h, st, name, payload, cls);
  }

  lemma AnswerTaken(idx: MockIndex, d: Decision, name: string, key: Key)
    ensures forall k :: Queue(Counted(idx, d), name, k) == Queue(idx, name, k)
  {
  }

  lemma MockedBump(st: State, cls: Class)
    ensures var up := Bump(st, cls, true); up.log == st.log && up.ran == st.ran
  {
  }
}
