/** What a recorded call leaves behind, when it leaves what a replay can serve: its own
    record, with a host-emitted refresh before it at most. */
module CallRecords {
  import opened Options
  import opened Json
  import opened Trace
  import opened Mocks
  import opened Pipeline
  import opened FanOut
  import opened Shadows
  import Reentry

  /** One bump and one record, the shape of every effect written on replay. */
  function Wrote(st: State, cls: Class, r: Trace.Record): State {
    Write(Bump(st, cls, false), r)
  }

  /** At most one host-emitted record, then the effect's own, with the outcome it returned. */
  datatype RecordPair = RecordPair(pre: Option<Trace.Record>, own: Trace.Record)

  /** The state a replay of the pair would leave. */
  function Replayed(rec: State, cls: Class, p: RecordPair): State {
    Wrote(if p.pre.Some? then Wrote(rec, Mutate, p.pre.value) else rec, cls, p.own)
  }

  /** What recording leaves on top of that: what ran, mock indices consulted, and the
      mocked answer counted. */
  predicate Besides(plain: State, end: State, answered: bool) {
    && end == plain.(ran := end.ran, spanMocks := end.spanMocks, mockIndex := end.mockIndex, stack := end.stack)
    && MockedMore(plain.stack, end.stack, answered) && LastGrew(plain.spanMocks, end.spanMocks, answered)
  }

  predicate Outcomes(name: string, own: Trace.Record, reply: Result<Json, Failure>)
    requires own.Effect?
  {
    && own.error == (if reply.Ok? then None else Some(reply.error))
    && (reply.Ok? && name != "blob.read" ==> own.output == reply.value)
  }

  ghost predicate RecordedAs(h: Host, rec: State, name: string, payload: Json, p: RecordPair,
                             end: State, reply: Result<Json, Failure>) {
    var cls := Classify(h, name, payload);
    && RecordsEffect(rec, name, payload, cls, false, p.own)
    && (p.pre.Some? ==>
          IsHttp(name) && p.pre.value.Effect?
          && RecordsEffect(rec, "oauth.refresh", p.pre.value.input, Mutate, true, p.pre.value))
    && Besides(Replayed(rec, cls, p), end, p.own.emeta.mocked)
    && Outcomes(name, p.own, reply)
  }

  // --- consults ---

  function RefreshPayload(provider: string): Json { Obj([Field("provider", Str(provider))]) }

  /** A consult depends on the indices, the mode and the facades around, and moves the
      index consulted only. */
  lemma ConsultElsewhere(a: State, b: State, name: string, key: Key)
    requires b.spanMocks == a.spanMocks && b.mockIndex == a.mockIndex && b.mode == a.mode
    requires Facades(b.stack) == Facades(a.stack)
    ensures ConsultMock(b, name, key).1 == ConsultMock(a, name, key).1
    ensures ConsultMock(b, name, key).0.spanMocks == ConsultMock(a, name, key).0.spanMocks
  {
    hide Decide, Take, NeverMockable, Counted;
  }

  lemma BumpKeepsFacades(st: State, cls: Class)
    ensures Facades(Bump(st, cls, false).stack) == Facades(st.stack)
  {
  }

  lemma ConsultGrows(st: State, name: string, key: Key)
    ensures var (st1, c) := ConsultMock(st, name, key);
            && st1 == st.(spanMocks := st1.spanMocks, mockIndex := st1.mockIndex)
            && LastGrew(st.spanMocks, st1.spanMocks, c.Serve?)
  {
    hide Decide, Take, NeverMockable, Counted;
    if !NeverMockable(name) && st.spanMocks != [] {
      var idx := st.spanMocks[|st.spanMocks| - 1];
      AskGrows(idx, Decide(idx, name, Facades(st.stack)), name, key, Facades(st.stack));
    } else if st.spanMocks != [] {
      BehindItself(st.spanMocks[|st.spanMocks| - 1]);
    }
  }

  lemma AskGrows(idx: MockIndex, d: Decision, name: string, key: Key, facades: seq<string>)
    requires d == Decide(idx, name, facades)
    ensures !d.IsMockable() ==> Grew(idx, Counted(idx, d), false)
    ensures d.IsMockable() ==>
              Grew(idx, Take(Counted(idx, d), name, key).0, Take(Counted(idx, d), name, key).1.Some?)
  {
    hide Take, Hit;
    TakeKeepsFilter(Counted(idx, d), name, key);
    NoGlobsNoHit(idx.only, name, facades);
    NoGlobsNoHit(idx.except, name, facades);
  }

  lemma NoGlobsNoHit(globs: seq<string>, name: string, facades: seq<string>)
    ensures globs == [] ==> !Hit(globs, name, facades)
  {
  }

  lemma GrowsOn(a: seq<MockIndex>, b: seq<MockIndex>, c: seq<MockIndex>)
    requires LastGrew(a, b, false) && LastGrew(b, c, false)
    ensures LastGrew(a, c, false)
  {
  }

  // --- the refresh a call may emit ---

  /** A live http call refreshes its token, and a mock answers or refuses the refresh:
      the record of that is not marked as the host's own. */
  predicate RefreshMocked(h: Host, st: State, name: string, payload: Json) {
    IsHttp(name) &&
    var (st1, c) := ConsultMock(st, name, Key(name, payload));
    && !Met(c) && RefreshMet(st1, h.answer(|st.ran|, name, payload))
  }

  predicate RefreshMet(st: State, a: Answer) {
    a.refresh.Some? &&
    var payload := RefreshPayload(a.refresh.value);
    Met(ConsultMock(st, "oauth.refresh", Key("oauth.refresh", payload)).1)
  }

  /** Not met by a mock, it runs, and is recorded as host-emitted. */
  lemma HostedRefresh(h: Host, st: State, provider: string) returns (r: Trace.Record)
    requires !st.mode.Replay? && st.hosted == 0 && !RefreshMet(st, Answer(Some(provider), Ok(Null)))
    ensures var end := CallHosted(h, st, provider).0;
            && r.Effect? && RecordsEffect(st, "oauth.refresh", r.input, Mutate, true, r)
                && r.input == RefreshPayload(provider)
            && end == Wrote(st, Mutate, r).(ran := end.ran, spanMocks := end.spanMocks, mockIndex := end.mockIndex)
            && LastGrew(st.spanMocks, end.spanMocks, false)
  {
    hide ConsultMock, Execute, CallAdmitted, LastGrew;
    Reentry.RefreshIsItsOwn();
    var payload := RefreshPayload(provider);
    var inner := st.(hosted := 1);
    var key := Key("oauth.refresh", payload);
    assert Classify(h, "oauth.refresh", payload) == Mutate;
    ConsultElsewhere(st, inner, "oauth.refresh", key);
    ConsultGrows(inner, "oauth.refresh", key);
    var (st1, c) := ConsultMock(inner, "oauth.refresh", key);
    LiveWhenNotMet(h, inner, "oauth.refresh", payload, Mutate);
    RefreshOnlyRuns(h, Bump(st1, Mutate, false), payload);
    var end := Call(h, inner, "oauth.refresh", payload).0;
    r := end.log[|st.log|];
    assert CallHosted(h, st, provider).0 == end.(hosted := 0);
  }

  lemma LiveWhenNotMet(h: Host, st: State, name: string, payload: Json, cls: Class)
    requires !Met(ConsultMock(st, name, Key(name, payload)).1)
    ensures var (st1, c) := ConsultMock(st, name, Key(name, payload));
            CallAdmitted(h, st, name, payload, cls) == CallLive(h, st1, name, payload, cls, c.Miss?)
  {
    hide ConsultMock, CallLive;
  }

  lemma RefreshOnlyRuns(h: Host, st: State, payload: Json)
    requires st.hosted > 0
    ensures Execute(h, st, "oauth.refresh", payload).0 == LogRun(st, "oauth.refresh", payload)
  {
    Reentry.RefreshIsItsOwn();
  }

  /** `end` is `st` with the refresh written, if there was one. */
  predicate Refreshed(st: State, pre: Option<Trace.Record>, end: State) {
    && LastGrew(st.spanMocks, end.spanMocks, false)
    && match pre
       case None => end == st.(ran := end.ran, spanMocks := end.spanMocks, mockIndex := end.mockIndex)
       case Some(r) =>
         && r.Effect? && RecordsEffect(st, "oauth.refresh", r.input, Mutate, true, r)
         && end == Wrote(st, Mutate, r).(ran := end.ran, spanMocks := end.spanMocks, mockIndex := end.mockIndex)
  }

  lemma RanIsRefreshed(st: State, end: State)
    requires end == st.(ran := end.ran)
    ensures Refreshed(st, None, end)
  {
    if st.spanMocks != [] { BehindItself(st.spanMocks[|st.spanMocks| - 1]); }
  }

  /** Executing an effect changes nothing else, unless a batch fans out or a mock meets
      the refresh. */
  lemma ExecutePlain(h: Host, st: State, name: string, payload: Json) returns (pre: Option<Trace.Record>)
    requires !st.mode.Replay? && st.hosted == 0
    requires name == "batch" ==> NoItemRecords(h, payload)
    requires IsHttp(name) ==> !RefreshMet(st, h.answer(|st.ran|, name, payload))
    ensures var (end, reply) := Execute(h, st, name, payload);
            && Refreshed(st, pre, end) && (pre.Some? ==> IsHttp(name))
            && (name == "blob.read" ==> reply == h.blobRead(payload))
  {
    hide CallHosted, Batch, ConsultMock, Refreshed, NoItemRecords, Wrote;
    pre := None;
    BatchIsItsOwn();
    assert "blob.read"[0] != "http."[0] && |"blob.read"| != |"oauth.refresh"|;
    var st1 := LogRun(st, name, payload);
    RanIsRefreshed(st, st1);
    if IsHttp(name) {
      var a := h.answer(|st.ran|, name, payload);
      if a.refresh.Some? {
        ConsultElsewhere(st, st1, "oauth.refresh", Key("oauth.refresh", RefreshPayload(a.refresh.value)));
        var r := HostedRefresh(h, st1, a.refresh.value);
        pre := Some(r);
        RanBefore(st, st1, r, CallHosted(h, st1, a.refresh.value).0);
      }
    } else if name == "batch" {
      UntouchedBatch(h, st1, payload);
    }
  }

  lemma RanBefore(st: State, st1: State, r: Trace.Record, end: State)
    requires st1 == st.(ran := st1.ran) && Refreshed(st1, Some(r), end)
    ensures Refreshed(st, Some(r), end)
  {
  }

  // --- the call ---

  /** Bumps commute, so it does not matter that the recorder counts the outer call before
      its refresh and the replayer after it. */
  lemma BumpsCommute(st: State, a: Class, b: Class)
    ensures Bump(Bump(st, a, false), b, false) == Bump(Bump(st, b, false), a, false)
  {
    var x, y := Bump(Bump(st, a, false), b, false), Bump(Bump(st, b, false), a, false);
    assert x.stack == y.stack;
  }

  /** What a step guarantees about a call that is not denied. */
  predicate Servable(h: Host, st: State, name: string, payload: Json) {
    && (name == "batch" ==> Alone(h, st, payload))
    && !RefreshMocked(h, st, name, payload)
  }

  lemma NoMoreMocked(stack: seq<Frame>)
    ensures MockedMore(stack, stack, false)
  {
  }

  lemma RecordDenied(h: Host, rec: State, name: string, payload: Json, f: Failure, mark: MockMark) returns (p: RecordPair)
    ensures RecordedAs(h, rec, name, payload, p,
                       WriteRefusal(rec, name, payload, Classify(h, name, payload), f, mark), Err(f))
    ensures !p.own.emeta.mocked
  {
    var cls := Classify(h, name, payload);
    var end := WriteRefusal(rec, name, payload, cls, f, mark);
    p := RecordPair(None, end.log[|rec.log|]);
    NoMoreMocked(end.stack);
    if rec.spanMocks != [] { BehindItself(rec.spanMocks[|rec.spanMocks| - 1]); }
  }

  lemma RecordAnswered(h: Host, rec: State, name: string, payload: Json, slot: Slot) returns (p: RecordPair)
    ensures var cls := Classify(h, name, payload);
            var end := WriteMocked(Bump(rec, cls, true), name, payload, Key(name, payload), slot.rec,
                                   EffectMeta(None, true, cls, false, None, ServedFrom(slot.provenance)));
            && p.pre.None? && RecordsEffect(rec, name, payload, cls, false, p.own) && p.own.emeta.mocked
            && end == Wrote(rec, cls, p.own).(stack := end.stack)
            && MockedMore(Wrote(rec, cls, p.own).stack, end.stack, true)
            && Outcomes(name, p.own, Recorded(slot.rec)) && p.own.output == slot.rec.output
  {
    var cls := Classify(h, name, payload);
    var end := WriteMocked(Bump(rec, cls, true), name, payload, Key(name, payload), slot.rec,
                           EffectMeta(None, true, cls, false, None, ServedFrom(slot.provenance)));
    p := RecordPair(None, end.log[|rec.log|]);
    assert TopId(Bump(rec, cls, true)) == TopId(rec);
  }

  lemma RecordLive(h: Host, rec: State, name: string, payload: Json, unmatched: bool) returns (p: RecordPair)
    requires !rec.mode.Replay? && rec.hosted == 0
    requires name == "batch" ==> NoItemRecords(h, payload)
    requires IsHttp(name) ==> !RefreshMet(rec, h.answer(|rec.ran|, name, payload))
    ensures var (end, reply) := CallLive(h, rec, name, payload, Classify(h, name, payload), unmatched);
            && RecordedAs(h, rec, name, payload, p, end, reply) && !p.own.emeta.mocked
            && (name == "blob.read" ==> reply == h.blobRead(payload))
  {
    hide ConsultMock, Execute, NoItemRecords, LastGrew, MockedMore;
    var cls := Classify(h, name, payload);
    var up := Bump(rec, cls, false);
    BumpKeepsDepth(rec, cls);
    BumpKeepsFacades(rec, cls);
    if IsHttp(name) {
      var a := h.answer(|rec.ran|, name, payload);
      if a.refresh.Some? {
        ConsultElsewhere(rec, up, "oauth.refresh", Key("oauth.refresh", RefreshPayload(a.refresh.value)));
      }
    }
    var pre := ExecutePlain(h, up, name, payload);
    var (st2, reply) := Execute(h, up, name, payload);
    var end := CallLive(h, rec, name, payload, cls, unmatched).0;
    p := RecordPair(pre, end.log[|end.log| - 1]);
    if pre.Some? { BumpsCommute(rec, cls, Mutate); }
    NoMoreMocked(end.stack);
    LiveShape(h, rec, name, payload, cls, unmatched, pre, st2, reply);
  }

  lemma LiveShape(h: Host, rec: State, name: string, payload: Json, cls: Class, unmatched: bool,
                  pre: Option<Trace.Record>, st2: State, reply: Result<Json, Failure>)
    requires rec.hosted == 0 && Refreshed(Bump(rec, cls, false), pre, st2)
    ensures var end := WriteLive(h, st2, name, payload, cls, unmatched, reply);
            var p := RecordPair(pre, end.log[|end.log| - 1]);
            && RecordsEffect(rec, name, payload, cls, false, p.own) && !p.own.emeta.mocked
            && (pre.Some? ==> pre.value.Effect? && RecordsEffect(rec, "oauth.refresh", pre.value.input, Mutate, true,
                pre.value))
            && end == Replayed(rec, cls, p).(ran := end.ran, spanMocks := end.spanMocks, mockIndex := end.mockIndex)
            && LastGrew(rec.spanMocks, end.spanMocks, false)
            && Outcomes(name, p.own, reply)
  {
    hide LastGrew;
    BumpKeepsDepth(rec, cls);
    BumpsCommute(rec, cls, Mutate);
    if pre.Some? { BumpKeepsDepth(Bump(rec, cls, false), Mutate); BumpKeepsDepth(rec, Mutate); }
  }

  /** A recorded call that is not denied: it leaves its own record, with the outcome it
      returned, after at most one host-emitted one. */
  lemma RecordAdmitted(h: Host, rec: State, name: string, payload: Json) returns (p: RecordPair)
    requires !rec.mode.Replay? && rec.hosted == 0 && !IsDenied(h, rec, name, payload) && Servable(h, rec, name, payload)
    ensures var (end, reply) := CallAdmitted(h, rec, name, payload, Classify(h, name, payload));
            var c := ConsultMock(rec, name, Key(name, payload)).1;
            && RecordedAs(h, rec, name, payload, p, end, reply)
            && (p.own.emeta.mocked <==> c.Serve?)
            && (c.Serve? ==> reply == Recorded(c.slot.rec))
            && (name == "blob.read" ==> reply == h.blobRead(payload) || c.Serve? || reply.Err?)
  {
    hide ConsultMock, CallLive, LastGrew, MockedMore, NoItemRecords, RecordedAs, RefreshMet, WriteRefusal, Bump, Recorded;
    var cls := Classify(h, name, payload);
    var (st1, c) := ConsultMock(rec, name, Key(name, payload));
    ConsultGrows(rec, name, Key(name, payload));
    var (end, reply) := CallAdmitted(h, rec, name, payload, cls);
    match c {
      case Serve(slot) =>
        p := RecordAnswered(h, st1, name, payload, slot);
        AfterConsult(h, rec, st1, name, payload, p, end, reply);
      case Miss(Fail) =>
        p := RecordDenied(h, st1, name, payload, NoMock(name), Unmatched);
        AfterQuietConsult(h, rec, st1, name, payload, p, end, reply);
      case _ =>
        p := RecordLive(h, st1, name, payload, c.Miss?);
        AfterQuietConsult(h, rec, st1, name, payload, p, end, reply);
    }
  }

  /** The same pair, seen from before a consult that answered nothing. */
  lemma AfterQuietConsult(h: Host, rec: State, st1: State, name: string, payload: Json, p: RecordPair,
                          end: State, reply: Result<Json, Failure>)
    requires st1 == rec.(spanMocks := st1.spanMocks, mockIndex := st1.mockIndex) && LastGrew(rec.spanMocks,
        st1.spanMocks, false)
    requires RecordedAs(h, st1, name, payload, p, end, reply) && !p.own.emeta.mocked
    ensures RecordedAs(h, rec, name, payload, p, end, reply)
  {
    hide LastGrew, MockedMore;
    GrowsOn(rec.spanMocks, st1.spanMocks, end.spanMocks);
  }

  lemma AfterConsult(h: Host, rec: State, st1: State, name: string, payload: Json, p: RecordPair,
                     end: State, reply: Result<Json, Failure>)
    requires st1 == rec.(spanMocks := st1.spanMocks, mockIndex := st1.mockIndex) && LastGrew(rec.spanMocks,
        st1.spanMocks, true)
    requires var cls := Classify(h, name, payload);
             && p.pre.None? && RecordsEffect(st1, name, payload, cls, false, p.own) && p.own.emeta.mocked
             && end == Wrote(st1, cls, p.own).(stack := end.stack)
             && MockedMore(Wrote(st1, cls, p.own).stack, end.stack, true)
             && Outcomes(name, p.own, reply)
    ensures RecordedAs(h, rec, name, payload, p, end, reply)
  {
    hide LastGrew, MockedMore;
  }

  // --- calls that leave more ---

  /** A batch that fans out: the records of its items stand before its own. */
  lemma BatchFansOut(h: Host, rec: State, payload: Json) returns (inner: seq<Trace.Record>)
    requires Recording(rec) && rec.hosted == 0 && !IsDenied(h, rec, "batch", payload) && !Alone(h, rec, payload)
    ensures var (end, reply) := Call(h, rec, "batch", payload);
            && inner != [] && rec.log + inner <= end.log && AllInner(inner, Size(payload)) && EndsPlain(inner)
            && reply != Err(DIVERGENCE)
  {
    hide ConsultMock, Execute, CallAdmitted, Batch, Bump, NoItemRecords;
    BatchIsItsOwn();
    var cls := Classify(h, "batch", payload);
    var (st1, c) := ConsultMock(rec, "batch", Key("batch", payload));
    ConsultKeepsDepth(rec, "batch", Key("batch", payload));
    LiveWhenNotMet(h, rec, "batch", payload, cls);
    var up := Bump(st1, cls, false);
    BumpWritesNothing(st1, cls, false, 0);
    BatchExecutes(h, up, payload);
    var ran := LogRun(up, "batch", payload);
    var mid := Batch(h, ran, payload).0;
    BatchAppends(h, ran, payload, Size(payload));
    TouchedBatch(h, ran, payload);
    inner := mid.log[|rec.log|..];
    assert mid.log == rec.log + inner;
    assert DIVERGENCE.kind[0] != UNKNOWN[0];
  }

  /** A call met by a mock leaves its own record, without the host's mark. */
  lemma MetRecord(h: Host, st: State, name: string, payload: Json, cls: Class) returns (r: Trace.Record)
    requires Met(ConsultMock(st, name, Key(name, payload)).1)
    ensures CallAdmitted(h, st, name, payload, cls).0.log == st.log + [r]
    ensures r.Effect? && r.name == name && !r.emeta.hosted
  {
    hide ConsultMock, Bump;
    var (st1, c) := ConsultMock(st, name, Key(name, payload));
    ConsultKeepsDepth(st, name, Key(name, payload));
    BumpWritesNothing(st1, cls, true, 0);
    BumpWritesNothing(st1, cls, false, 0);
    var end := CallAdmitted(h, st, name, payload, cls).0;
    match c {
      case Serve(slot) => r := end.log[|st.log|];
      case Miss(Fail) => r := end.log[|st.log|];
    }
  }

  lemma MetRefresh(h: Host, st: State, provider: string) returns (r: Trace.Record)
    requires !st.mode.Replay? && st.hosted == 0 && RefreshMet(st, Answer(Some(provider), Ok(Null)))
    ensures var end := CallHosted(h, st, provider).0;
            end.log == st.log + [r] && r.Effect? && r.name == "oauth.refresh" && !r.emeta.hosted
  {
    hide ConsultMock, CallAdmitted;
    Reentry.RefreshIsItsOwn();
    var payload := RefreshPayload(provider);
    var inner := st.(hosted := 1);
    ConsultElsewhere(st, inner, "oauth.refresh", Key("oauth.refresh", payload));
    assert Classify(h, "oauth.refresh", payload) == Mutate;
    r := MetRecord(h, inner, "oauth.refresh", payload, Mutate);
    assert CallHosted(h, st, provider).0.log == Call(h, inner, "oauth.refresh", payload).0.log;
  }

  lemma RefreshFirst(h: Host, rec: State, name: string, payload: Json) returns (r: Trace.Record)
    requires !rec.mode.Replay? && rec.hosted == 0 && RefreshMocked(h, rec, name, payload) && !IsDenied(h, rec, name, payload)
    ensures r.Effect? && r.name == "oauth.refresh" && !r.emeta.hosted
    ensures rec.log + [r] <= Call(h, rec, name, payload).0.log
  {
    hide ConsultMock, CallAdmitted, CallHosted, Bump, RefreshMet, Batch;
    assert "blob.put"[0] != "http."[0];
    var cls := Classify(h, name, payload);
    var (st1, c) := ConsultMock(rec, name, Key(name, payload));
    ConsultKeepsDepth(rec, name, Key(name, payload));
    LiveWhenNotMet(h, rec, name, payload, cls);
    var up := Bump(st1, cls, false);
    BumpWritesNothing(st1, cls, false, 0);
    var ran := LogRun(up, name, payload);
    var a := h.answer(|rec.ran|, name, payload);
    StillMet(st1, cls, ran, a);
    r := MetRefresh(h, ran, a.refresh.value);
  }

  lemma StillMet(st1: State, cls: Class, ran: State, a: Answer)
    requires RefreshMet(st1, a) && ran == Bump(st1, cls, false).(ran := ran.ran)
    ensures a.refresh.Some? && RefreshMet(ran, Answer(Some(a.refresh.value), Ok(Null)))
  {
    hide ConsultMock;
    BumpKeepsDepth(st1, cls);
    BumpKeepsFacades(st1, cls);
    ConsultElsewhere(st1, ran, "oauth.refresh", Key("oauth.refresh", RefreshPayload(a.refresh.value)));
  }

  /** A mock that answers the refresh with the broker's own refusal makes the http call come
      back unknown although it ran. */
  lemma ForgedRefusalRan(h: Host, rec: State, name: string, payload: Json, slot: Slot)
    requires !rec.mode.Replay? && rec.hosted == 0 && RefreshMocked(h, rec, name, payload) && !IsDenied(h, rec, name, payload)
    requires var st1 := ConsultMock(rec, name, Key(name, payload)).0;
             h.answer(|rec.ran|, name, payload).refresh.Some? &&
             var refresh := RefreshPayload(h.answer(|rec.ran|, name, payload).refresh.value);
             ConsultMock(st1, "oauth.refresh", Key("oauth.refresh", refresh)).1 == Serve(slot)
    requires Reentry.IsUnknown(Recorded(slot.rec))
    ensures Reentry.IsUnknown(Call(h, rec, name, payload).1)
    ensures rec.ran + [Execution(name, payload, false)] <= Call(h, rec, name, payload).0.ran
  {
    hide ConsultMock, CallAdmitted, CallHosted, Bump, RefreshMet, Batch, Recorded;
    assert "blob.put"[0] != "http."[0];
    var cls := Classify(h, name, payload);
    var (st1, c) := ConsultMock(rec, name, Key(name, payload));
    ConsultKeepsDepth(rec, name, Key(name, payload));
    LiveWhenNotMet(h, rec, name, payload, cls);
    BumpWritesNothing(st1, cls, false, 0);
    var ran := LogRun(Bump(st1, cls, false), name, payload);
    ServedRefresh(h, st1, cls, ran, h.answer(|rec.ran|, name, payload).refresh.value, slot);
    assert Call(h, rec, name, payload) == CallAdmitted(h, rec, name, payload, cls);
  }

  lemma ServedRefresh(h: Host, st1: State, cls: Class, ran: State, provider: string, slot: Slot)
    requires !st1.mode.Replay? && st1.hosted == 0 && ran == Bump(st1, cls, false).(ran := ran.ran)
    requires ConsultMock(st1, "oauth.refresh", Key("oauth.refresh", RefreshPayload(provider))).1 == Serve(slot)
    ensures CallHosted(h, ran, provider).1 == Recorded(slot.rec)
    ensures CallHosted(h, ran, provider).0.ran == ran.ran
  {
    hide ConsultMock, Classify, Recorded, CallAdmitted;
    Reentry.RefreshIsItsOwn();
    BumpKeepsDepth(st1, cls);
    BumpKeepsFacades(st1, cls);
    var inner := ran.(hosted := 1);
    var payload := RefreshPayload(provider);
    ConsultElsewhere(st1, inner, "oauth.refresh", Key("oauth.refresh", payload));
    AdmittedServes(h, inner, "oauth.refresh", payload, Classify(h, "oauth.refresh", payload), slot);
    assert !IsDenied(h, inner, "oauth.refresh", payload);
    var end := Call(h, inner, "oauth.refresh", payload);
    assert CallHosted(h, ran, provider) == (end.0.(hosted := end.0.hosted - 1), end.1);
  }

  lemma AdmittedServes(h: Host, st: State, name: string, payload: Json, cls: Class, slot: Slot)
    requires ConsultMock(st, name, Key(name, payload)).1 == Serve(slot)
    ensures CallAdmitted(h, st, name, payload, cls).1 == Recorded(slot.rec)
    ensures CallAdmitted(h, st, name, payload, cls).0.ran == st.ran
  {
    hide ConsultMock, Recorded;
    ConsultGrows(st, name, Key(name, payload));
  }
}
