/** Record, then replay: the simulation between a recording and a replaying broker, over
    every deterministic guest, every outside world, every mock and every grant. */
module Replaying {
  import opened Options
  import opened Json
  import opened Trace
  import opened Mocks
  import opened MockSpecs
  import opened Caps
  import opened Pipeline
  import opened Stretch
  import opened Accounting
  import opened FanOut
  import opened Shadows
  import opened CallRecords

  // --- guests and runs ---

  /** A deterministic guest: its next operation is a function of the replies so far. */
  type Guest = seq<Reply> -> Op

  datatype Run = Run(st: State, replies: seq<Reply>)

  function Go(h: Host, st: State, g: Guest, n: nat): (r: Run)
    ensures |r.replies| == n
  {
    if n == 0 then Run(st, [])
    else
      var before := Go(h, st, g, n - 1);
      var (st', reply) := Step(h, before.st, g(before.replies));
      Run(st', before.replies + [reply])
  }

  /** The operation a run performs next. */
  function OpAt(h: Host, st: State, g: Guest, k: nat): Op { g(Go(h, st, g, k).replies) }

  /** What of an end record's meta can be held against the recording: not how long the
      span took; and, unless the view is exact, not the two mock counts either, nor where
      a served span came from. */
  function Blur(exact: bool, m: SpanMeta): SpanMeta {
    if exact then m.(durMs := 0)
    else m.(durMs := 0, mocked := 0, mockFilter := None, servedFrom := if m.servedFrom.Some? then Some(Null) else None)
  }

  function Visible(exact: bool, r: Reply): Reply {
    if r.Ended? then Ended(Blur(exact, r.meta)) else r
  }

  function VisibleAll(exact: bool, rs: seq<Reply>): seq<Reply> {
    seq(|rs|, i requires 0 <= i < |rs| => Visible(exact, rs[i]))
  }

  /** The guest does not branch on what the view leaves out. */
  ghost predicate Blind(exact: bool, g: Guest) {
    forall a, b :: VisibleAll(exact, a) == VisibleAll(exact, b) ==> g(a) == g(b)
  }

  /** Recorder and replayer share the runtime's own tables, and the blob directory
      still has every blob the recording read. */
  ghost predicate SameRuntime(h: Host, h': Host) {
    && h'.httpMutates == h.httpMutates && h'.materialize == h.materialize
    && forall payload :: h.blobRead(payload).Ok? ==> h'.blobRead(payload) == h.blobRead(payload)
  }

  /** What a replayed record keeps of the original: all but `mocked` and what the view
      leaves out of end records. */
  function Erase(exact: bool, r: Trace.Record): Trace.Record {
    if r.Effect? then r.(emeta := r.emeta.(mocked := true))
    else if r.SpanEnd? then r.(smeta := Blur(exact, r.smeta))
    else r
  }

  function EraseAll(exact: bool, log: seq<Trace.Record>): seq<Trace.Record> {
    seq(|log|, i requires 0 <= i < |log| => Erase(exact, log[i]))
  }

  /** The replay has an id of its own, that no spec names, and a store that has kept the runs
      the spec names, the recorded one included if it names that. */
  ghost predicate SpecReloads(h: Host, h': Host, log: seq<Trace.Record>, spec: Json) {
    && !Names(spec, h'.runId)
    && forall run | Names(spec, run) :: h'.runs(run) == StoreWith(h, log)(run)
  }

  lemma ReplayReloads(h: Host, h': Host, log: seq<Trace.Record>, spec: Json, soFar: seq<Trace.Record>)
    requires SpecReloads(h, h', log, spec)
    ensures BuildMock(h', spec, soFar) == Reload(h, log, spec)
  {
    hide Build, Names;
    NamesNoBlank(spec);
    BuildDependsOnNamedRuns(spec, Runs(h'.runId, soFar, h'.runs), Runs("", [], StoreWith(h, log)));
  }

  // --- the simulation relation ---

  /** The replayer stands where the recorder stands; `log` is the whole recording. */
  ghost predicate Sync(exact: bool, s: Shadow, rec: State, rep: State, log: seq<Trace.Record>) {
    && !rec.mode.Replay? && rep.mode.Replay? && rec.hosted == 0 && rep.hosted == 0
    && rep.spanN == rec.spanN && rep.mutations == rec.mutations && rep.cell == rec.cell
    && rep.cursor == Cursor(log, |rec.log|) && rec.log <= log
    && EraseAll(exact, rep.log) == EraseAll(exact, rec.log)
    && rep.spanMocks == s.mocks && Tracks(exact, s, rec.stack, rep.stack, rec.spanMocks)
  }

  /** Nothing ran live but blob reads. */
  ghost predicate OnlyBlobReads(before: seq<Execution>, after: seq<Execution>) {
    before <= after && forall k :: |before| <= k < |after| ==> after[k].name == "blob.read"
  }

  /** No recorded effect of the guest is denied by the grants of the replay. */
  ghost predicate Granted(h': Host, grants: Option<GrantSet>, log: seq<Trace.Record>) {
    grants.Some? ==>
      forall j | 0 <= j < |log| && log[j].Effect? && !log[j].emeta.hosted ::
        grants.value.Allowed(CapOf(h', log[j].name, log[j].input))
  }

  lemma EraseSnoc(exact: bool, a: seq<Trace.Record>, ra: Trace.Record, b: seq<Trace.Record>, rb: Trace.Record)
    requires EraseAll(exact, a) == EraseAll(exact, b) && Erase(exact, ra) == Erase(exact, rb)
    ensures EraseAll(exact, a + [ra]) == EraseAll(exact, b + [rb])
  {
    assert |EraseAll(exact, a)| == |a| && |EraseAll(exact, b)| == |b|;
    assert EraseAll(exact, a + [ra]) == EraseAll(exact, a) + [Erase(exact, ra)];
    assert EraseAll(exact, b + [rb]) == EraseAll(exact, b) + [Erase(exact, rb)];
  }

  lemma SameTop(exact: bool, s: Shadow, rec: State, rep: State, log: seq<Trace.Record>)
    requires Sync(exact, s, rec, rep, log)
    ensures TopId(rep) == TopId(rec) && Facades(rep.stack) == Facades(rec.stack)
  {
    var n := |rec.stack| - 1;
    if n >= 0 { assert SameFrame(rec.stack[n], rep.stack[n]); }
    forall i | 0 <= i < |rec.stack| ensures rep.stack[i].name == rec.stack[i].name {
      assert SameFrame(rec.stack[i], rep.stack[i]);
    }
    SameFacades(rec.stack, rep.stack);
  }

  // --- one effect ---

  /** Replaying the record at the head writes it through. */
  lemma HeadWritesThrough(exact: bool, s: Shadow, rec: State, rep: State, log: seq<Trace.Record>, name: string,
                          payload: Json, cls: Class, hosted: bool, r: Trace.Record)
    requires Sync(exact, s, rec, rep, log) && RecordsEffect(rec, name, payload, cls, hosted, r)
    requires rec.log + [r] <= log
    ensures rep.cursor.AtRecord() && rep.cursor.log[rep.cursor.pos] == r
    ensures var rep' := WriteThrough(rep, name, payload, Key(name, payload), cls);
            Sync(exact, s, Wrote(rec, cls, r), rep', log) && rep'.ran == rep.ran && rep'.grants == rep.grants
  {
    hide Tracks, EraseAll;
    assert log[|rec.log|] == r;
    var rep' := WriteThrough(rep, name, payload, Key(name, payload), cls);
    SameTop(exact, s, rec, rep, log);
    var up := Bump(rep.(cursor := rep.cursor.Advance()), cls, false);
    BumpKeepsDepth(rep.(cursor := rep.cursor.Advance()), cls);
    assert rep'.log == rep.log + [rep'.log[|rep.log|]];
    EraseSnoc(exact, rec.log, r, rep.log, rep'.log[|rep.log|]);
    BumpTracks(exact, s, rec.stack, rep.stack, rec.spanMocks, One(cls, false));
  }

  /** The replayer drains the host-emitted record and serves the effect's own. */
  lemma ReplayServes(exact: bool, s: Shadow, h: Host, h': Host, rec: State, rep: State, log: seq<Trace.Record>,
                     name: string, payload: Json, p: RecordPair, end: State, reply: Result<Json, Failure>)
    requires Sync(exact, s, rec, rep, log) && SameRuntime(h, h')
    requires RecordedAs(h, rec, name, payload, p, end, reply) && end.log <= log
    requires name == "blob.read" && reply.Ok? ==> h'.blobRead(payload) == reply
    ensures var (rep', reply') := ReplayCall(h', rep, name, payload);
            && Sync(exact, s, Replayed(rec, Classify(h, name, payload), p), rep', log) && reply' == reply
            && OnlyBlobReads(rep.ran, rep'.ran) && rep'.grants == rep.grants
  {
    hide WriteThrough, Tracks, EraseAll, Bump, MockedMore, LastGrew;
    var key := Key(name, payload);
    var cls := Classify(h, name, payload);
    var mid, mid' := rec, rep;
    if p.pre.Some? {
      var r := p.pre.value;
      assert "oauth.refresh"[0] != "http."[0];
      assert rec.log + [r] <= end.log by { BesidesKeepsLog(rec, cls, p, end); }
      HeadWritesThrough(exact, s, rec, rep, log, r.name, r.input, Mutate, true, r);
      mid, mid' := Wrote(rec, Mutate, r), WriteThrough(rep, r.name, r.input, r.key, Mutate);
      assert Classify(h', r.name, r.input) == Mutate;
      assert rep.cursor.HostedMismatch(name, key);
      assert Drain(h', rep, name, key) == Drain(h', mid', name, key);
    }
    assert RecordsEffect(mid, name, payload, cls, false, p.own) by { PreKeepsPlace(rec, p); }
    assert mid.log + [p.own] <= end.log by { BesidesKeepsLog(rec, cls, p, end); }
    HeadWritesThrough(exact, s, mid, mid', log, name, payload, cls, false, p.own);
    assert !mid'.cursor.HostedMismatch(name, key);
    assert Drain(h', rep, name, key) == mid';
    assert Classify(h', name, payload) == cls;
  }

  lemma PreKeepsPlace(rec: State, p: RecordPair)
    requires p.pre.Some?  ==> p.pre.value.Effect?
    ensures var mid := if p.pre.Some? then Wrote(rec, Mutate, p.pre.value) else rec;
            mid.cell == rec.cell && TopId(mid) == TopId(rec)
  {
    BumpKeepsDepth(rec, Mutate);
  }

  lemma BesidesKeepsLog(rec: State, cls: Class, p: RecordPair, end: State)
    requires Besides(Replayed(rec, cls, p), end, p.own.Effect? && p.own.emeta.mocked)
    ensures end.log == rec.log + (if p.pre.Some? then [p.pre.value] else []) + [p.own]
    ensures end.log == (if p.pre.Some? then Wrote(rec, Mutate, p.pre.value) else rec).log + [p.own]
    ensures p.pre.Some? ==> rec.log + [p.pre.value] <= end.log
  {
    hide MockedMore, LastGrew;
  }

  /** What the recorder did besides, no more than the shadow knows. */
  lemma SyncBesides(exact: bool, s: Shadow, plain: State, end: State, rep: State, log: seq<Trace.Record>,
                    answered: bool)
    requires Sync(exact, s, plain, rep, log) && Besides(plain, end, answered)
    requires exact ==> !answered && end.spanMocks == plain.spanMocks
    ensures Sync(exact, s.(touched := Marked(plain.stack, s.touched, answered, Moved(plain.spanMocks, end.spanMocks))),
                 end, rep, log)
  {
    hide Tracks, EraseAll, MockedMore, LastGrew, Marked;
    CallTracks(exact, s, plain.stack, end.stack, rep.stack, plain.spanMocks, end.spanMocks, answered);
  }

  lemma MarkedAlike(a: seq<Frame>, b: seq<Frame>, touched: seq<bool>, answered: bool, hit: bool)
    requires SameShape(a, b)
    ensures Marked(b, touched, answered, hit) == Marked(a, touched, answered, hit)
  {
    forall i | 0 <= i < |touched| ensures Marked(b, touched, answered, hit)[i] == Marked(a, touched, answered, hit)[i] {
      forall j | 0 <= j < |a| ensures b[j].ownsMock == a[j].ownsMock {
        assert b[j] == a[j].(tally := b[j].tally);
      }
    }
  }

  lemma ReplayedShape(rec: State, cls: Class, p: RecordPair)
    ensures SameShape(rec.stack, Replayed(rec, cls, p).stack) && Replayed(rec, cls, p).spanMocks == rec.spanMocks
  {
  }

  /** A replay serves what the directory holds, not the recorded answer; so a mocked read
      comes back when the slot says what the directory says. */
  predicate SlotFits(h': Host, st: State, name: string, payload: Json) {
    name == "blob.read" ==>
      var c := ConsultMock(st, name, Key(name, payload)).1;
      c.Serve? && c.slot.rec.error.None? ==> h'.blobRead(payload) == Ok(c.slot.rec.output)
  }

  /** A call a replay can give back. */
  predicate FaithfulCall(h: Host, h': Host, st: State, name: string, given: Json) {
    Materialises(h, name, given) ==>
      var payload := Payload(h, name, given);
      IsDenied(h, st, name, payload) || (Servable(h, st, name, payload) && SlotFits(h', st, name, payload))
  }

  /** Mocks make no difference to the step: none answered the call or counted it, and an
      index installed is the same again on replay. */
  predicate MocksAside(h: Host, log: seq<Trace.Record>, st: State, op: Op) {
    && (op.Do? ==> !Answered(h, st, op) && Step(h, st, op).0.spanMocks == st.spanMocks)
    && (op.Begin? && MockSpecOf(op.input).Some? ==>
          Reload(h, log, MockSpecOf(op.input).value) == BuildMock(h, MockSpecOf(op.input).value, st.log))
  }

  lemma AdmittedOnReplay(h': Host, rep: State, log: seq<Trace.Record>, rec': State, st: State, name: string,
                         payload: Json, cls: Class)
    requires Granted(h', rep.grants, log) && OwnsLast(st, rec', name, payload, cls) && rec'.log <= log
    ensures !IsDenied(h', rep, name, payload)
  {
    var j := |rec'.log| - 1;
    assert log[j] == rec'.log[j];
  }

  /** The recording's side of one call. */
  lemma CallRecorded(h: Host, h': Host, rec: State, name: string, payload: Json) returns (p: RecordPair)
    requires !rec.mode.Replay? && rec.hosted == 0 && SameRuntime(h, h')
    requires IsDenied(h, rec, name, payload) || (Servable(h, rec, name, payload) && SlotFits(h', rec, name, payload))
    ensures var (end, reply) := if IsDenied(h, rec, name, payload)
              then (WriteRefusal(rec, name, payload, Classify(h, name, payload), Denial(CapOf(h, name, payload),
                  name), Unmocked),
                    Err(Denial(CapOf(h, name, payload), name)))
              else CallAdmitted(h, rec, name, payload, Classify(h, name, payload));
            && RecordedAs(h, rec, name, payload, p, end, reply)
            && (name == "blob.read" && reply.Ok? ==> h'.blobRead(payload) == reply)
  {
    hide ConsultMock, CallAdmitted, RecordedAs, WriteRefusal, Servable;
    if IsDenied(h, rec, name, payload) {
      p := RecordDenied(h, rec, name, payload, Denial(CapOf(h, name, payload), name), Unmocked);
    } else {
      p := RecordAdmitted(h, rec, name, payload);
    }
  }

  lemma CallSimulated(exact: bool, s: Shadow, h: Host, h': Host, rec: State, rep: State, log: seq<Trace.Record>,
                      name: string, given: Json)
    requires Sync(exact, s, rec, rep, log) && SameRuntime(h, h') && Granted(h', rep.grants, log)
    requires FaithfulCall(h, h', rec, name, given) && (exact ==> MocksAside(h, log, rec, Do(name, given)))
    requires Call(h, rec, name, given).0.log <= log
    ensures var (rec', reply) := Call(h, rec, name, given);
            var (rep', reply') := Call(h', rep, name, given);
            && Sync(exact, Shade(h, log, rec, s, Do(name, given)), rec', rep', log) && reply' == reply
            && OnlyBlobReads(rep.ran, rep'.ran) && rep'.grants == rep.grants
  {
    hide ReplayCall, CallAdmitted, WriteRefusal, Sync, SameRuntime, Granted, Servable, SlotFits, RecordedAs,
         OwnsLast, IsDenied, Marked;
    var op := Do(name, given);
    var (rec', reply) := Call(h, rec, name, given);
    SyncModes(exact, s, rec, rep, log, h, h');
    if Materialises(h, name, given) {
      var payload := Payload(h, name, given);
      var cls := Classify(h, name, payload);
      CallOwnsLast(h, rec, name, given);
      AdmittedOnReplay(h', rep, log, rec', rec, name, payload, cls);
      var p := CallRecorded(h, h', rec, name, payload);
      ReplayServes(exact, s, h, h', rec, rep, log, name, payload, p, rec', reply);
      var plain := Replayed(rec, cls, p);
      var rep' := ReplayCall(h', rep, name, payload).0;
      PairInStep(h, rec, name, given, payload, p, rec', reply);
      SyncBesides(exact, s, plain, rec', rep', log, p.own.emeta.mocked);
      MarkedAlike(rec.stack, plain.stack, s.touched, p.own.emeta.mocked, Moved(rec.spanMocks, rec'.spanMocks));
    } else {
      NothingMarked(exact, s, h, rec, rep, log, op);
    }
  }

  lemma SyncModes(exact: bool, s: Shadow, rec: State, rep: State, log: seq<Trace.Record>, h: Host, h': Host)
    requires Sync(exact, s, rec, rep, log) && SameRuntime(h, h')
    ensures !rec.mode.Replay? && rep.mode.Replay? && rec.hosted == 0 && rep.hosted == 0
            && h'.materialize == h.materialize
  {
  }

  /** The pair, as the step and the shadow read it. */
  lemma PairInStep(h: Host, rec: State, name: string, given: Json, payload: Json, p: RecordPair, end: State,
                   reply: Result<Json, Failure>)
    requires RecordedAs(h, rec, name, payload, p, end, reply) && (end, reply) == Call(h, rec, name, given)
    ensures var op := Do(name, given);
            var plain := Replayed(rec, Classify(h, name, payload), p);
            && p.own.Effect? && Besides(plain, end, p.own.emeta.mocked)
            && SameShape(rec.stack, plain.stack) && plain.spanMocks == rec.spanMocks
            && (Answered(h, rec, op) <==> p.own.emeta.mocked)
            && (FilterHit(h, rec, op) <==> Moved(rec.spanMocks, end.spanMocks))
            && Step(h, rec, op).0 == end
  {
    hide Call, MockedMore, LastGrew, Moved, Replayed, Classify;
    BesidesKeepsLog(rec, Classify(h, name, payload), p, end);
    ReplayedShape(rec, Classify(h, name, payload), p);
  }

  lemma NothingMarked(exact: bool, s: Shadow, h: Host, rec: State, rep: State, log: seq<Trace.Record>, op: Op)
    requires Sync(exact, s, rec, rep, log) && op.Do? && Step(h, rec, op).0 == rec
    ensures Sync(exact, Shade(h, log, rec, s, op), rec, rep, log)
  {
    assert Shade(h, log, rec, s, op).touched == s.touched;
  }

  // --- spans ---

  function ServedAs(slot: Option<Slot>): Option<Served> {
    match slot case Some(x) => Some(ServedOutcome(x.rec)) case None => None
  }

  /** A begin a replay can give back: its spec builds; or the facade is served alike by
      the index and by its shadow, which no effect has taken answers from. */
  predicate FaithfulBegin(h: Host, st: State, s: Shadow, name: string, input: Json) {
    match MockSpecOf(input)
    case Some(spec) => BuildMock(h, spec, st.log).Ok?
    case None =>
      var key := Key(name, input);
      ServedAs(SlotFor(s.mocks, st.stack, name, key)) == ServedAs(SlotFor(st.spanMocks, st.stack, name, key))
  }

  /** The frame and the record a begin pushes. */
  function FrameOf(st: State, name: string, kind: Option<string>, owns: bool, slot: Option<Slot>): Frame {
    Frame(st.spanN, name, kind, ZERO, owns,
          match slot case Some(x) => Some((ServedOutcome(x.rec), x.provenance)) case None => None)
  }

  function BeginOf(st: State, name: string, input: Json): Trace.Record {
    SpanBegin(st.spanN, name, st.cell, input, Key(name, input), TopId(st))
  }

  lemma PushIs(st: State, name: string, kind: Option<string>, input: Json, owns: bool, slot: Option<Slot>)
    ensures PushSpan(st, name, kind, input, owns, slot) ==
            st.(log := st.log + [BeginOf(st, name, input)], stack := st.stack + [FrameOf(st, name, kind, owns, slot)])
  {
  }

  /** Both sides push. */
  lemma PushSimulated(exact: bool, s: Shadow, s': Shadow, rec: State, rep: State, log: seq<Trace.Record>,
                      rec': State, rep': State,
                      r: Trace.Record, f: Frame, f': Frame, own: seq<MockIndex>, own': seq<MockIndex>)
    requires Sync(exact, s, rec, rep, log) && rec.log + [r] <= log
    requires SameFrame(f, f') && f.tally == f'.tally && (exact ==> f' == f && own' == own)
    requires |own'| == |own| == if f.ownsMock then 1 else 0
    requires own != [] ==> Behind(own'[0], own[0]) && SameFilter(own'[0], own[0])
    requires rec' == rec.(spanN := rec.spanN + 1, log := rec.log + [r], stack := rec.stack + [f],
        spanMocks := rec.spanMocks + own)
    requires rep' == rep.(spanN := rec.spanN + 1, log := rep.log + [r], stack := rep.stack + [f'],
        spanMocks := rep.spanMocks + own',
                          cursor := rep.cursor.Advance())
    requires s' == Shadow(s.mocks + own', s.touched + [false], s.reloaded + [own' == own])
    ensures Sync(exact, s', rec', rep', log)
  {
    hide Tracks, EraseAll;
    EraseSnoc(exact, rec.log, r, rep.log, r);
    PushTracks(exact, s, rec.stack, rep.stack, rec.spanMocks, f, f', own, own');
  }

  /** Both sides let a facade ask. */
  lemma AskSimulated(exact: bool, s: Shadow, rec: State, rep: State, log: seq<Trace.Record>, name: string, key: Key)
    requires Sync(exact, s, rec, rep, log)
    ensures Sync(exact, s.(mocks := Consulted(s.mocks, rec.stack, name, key)),
                 rec.(spanMocks := Consulted(rec.spanMocks, rec.stack, name, key)),
                 rep.(spanMocks := Consulted(rep.spanMocks, rep.stack, name, key)), log)
    ensures SlotFor(rep.spanMocks, rep.stack, name, key) == SlotFor(s.mocks, rec.stack, name, key)
    ensures exact ==> s.mocks == rec.spanMocks
  {
    hide Consulted, EraseAll, Asked;
    SameTop(exact, s, rec, rep, log);
    ConsultTracks(exact, s, rec.stack, rep.stack, rec.spanMocks, name, key);
    assert SlotFor(rep.spanMocks, rep.stack, name, key) == SlotFor(s.mocks, rec.stack, name, key) by {
      hide Tracks, Sync;
    }
  }

  /** What a begin with a spec leaves when it builds, and one without. */
  lemma SpecBeginIs(h: Host, st: State, name: string, kind: Option<string>, input: Json, idx: MockIndex)
    requires MockSpecOf(input).Some? && BuildMock(h, MockSpecOf(input).value, st.log) == Ok(idx)
    requires st.mode.Replay? ==> st.cursor.AtBegin(name, Key(name, input))
    ensures var st1 := st.(spanN := st.spanN + 1);
            BeginSpan(h, st, name, kind, input) ==
            (st.(spanN := st.spanN + 1, log := st.log + [BeginOf(st1, name, input)],
                 stack := st.stack + [FrameOf(st1, name, kind, true, None)], spanMocks := st.spanMocks + [idx],
                 cursor := if st.mode.Replay? then st.cursor.Advance() else st.cursor),
             Began(st.spanN + 1, None))
  {
    hide PushSpan, BuildMock;
    var st1 := st.(spanN := st.spanN + 1, spanMocks := st.spanMocks + [idx]);
    PushIs(st1, name, kind, input, true, None);
    PushIs(st1.(cursor := st.cursor.Advance()), name, kind, input, true, None);
  }

  lemma FacadeBeginIs(h: Host, st: State, name: string, kind: Option<string>, input: Json)
    requires MockSpecOf(input).None? && (st.mode.Replay? ==> st.cursor.AtBegin(name, Key(name, input)))
    ensures var st1 := st.(spanN := st.spanN + 1);
            var key := Key(name, input);
            var slot := SlotFor(st.spanMocks, st.stack, name, key);
            BeginSpan(h, st, name, kind, input) ==
            (st.(spanN := st.spanN + 1, log := st.log + [BeginOf(st1, name, input)],
                 stack := st.stack + [FrameOf(st1, name, kind, false, slot)],
                 spanMocks := Consulted(st.spanMocks, st.stack, name, key),
                 cursor := if st.mode.Replay? then st.cursor.Advance() else st.cursor),
             Began(st.spanN + 1, ServedAs(slot)))
  {
    hide PushSpan, ServeSpan, Consulted, SlotFor;
    var key := Key(name, input);
    var st1 := st.(spanN := st.spanN + 1);
    var st2 := if st.mode.Replay? then st1.(cursor := st.cursor.Advance()) else st1;
    ServeSpanAsks(st2, name, key);
    PushIs(st2.(spanMocks := Consulted(st.spanMocks, st.stack, name, key)), name, kind, input, false,
           SlotFor(st.spanMocks, st.stack, name, key));
  }

  lemma SpecBeginSimulated(exact: bool, s: Shadow, h: Host, h': Host, rec: State, rep: State, log: seq<Trace.Record>,
                           name: string, kind: Option<string>, input: Json)
    requires Sync(exact, s, rec, rep, log) && MockSpecOf(input).Some?
             && BuildMock(h, MockSpecOf(input).value, rec.log).Ok?
    requires SpecReloads(h, h', log, MockSpecOf(input).value) && BeginSpan(h, rec, name, kind, input).0.log <= log
    requires exact ==> MocksAside(h, log, rec, Begin(name, kind, input))
    ensures var (rec', reply) := BeginSpan(h, rec, name, kind, input);
            var (rep', reply') := BeginSpan(h', rep, name, kind, input);
            && Sync(exact, Shade(h, log, rec, s, Begin(name, kind, input)), rec', rep', log)
            && reply' == reply && rep'.ran == rep.ran && rep'.grants == rep.grants
  {
    hide BeginSpan, Sync, SpecReloads, Reload, BuildMock, Behind, SameFilter;
    var spec := MockSpecOf(input).value;
    ReplayReloads(h, h', log, spec, rep.log);
    ReloadsAlike(h, log, spec, rec.log);
    var idx, later := BuildMock(h, spec, rec.log).value, Reload(h, log, spec).value;
    SyncPlaces(exact, s, rec, rep, log);
    SpecBeginIs(h, rec, name, kind, input, idx);
    var r, f := BeginOf(rec.(spanN := rec.spanN + 1), name, input), FrameOf(rec.(spanN := rec.spanN + 1), name, kind,
        true, None);
    AtTheBegin(rec, rep, log, r, name, Key(name, input));
    SpecBeginIs(h', rep, name, kind, input, later);
    assert [later] == [idx] <==> later == idx;
    PushSimulated(exact, s, Shadow(s.mocks + [later], s.touched + [false], s.reloaded + [later == idx]), rec, rep, log,
                  BeginSpan(h, rec, name, kind, input).0, BeginSpan(h', rep, name, kind, input).0, r, f, f, [idx],
                      [later]);
  }

  lemma FacadeBeginSimulated(exact: bool, s: Shadow, h: Host, h': Host, rec: State, rep: State, log: seq<Trace.Record>,
                             name: string, kind: Option<string>, input: Json)
    requires Sync(exact, s, rec, rep, log) && MockSpecOf(input).None? && FaithfulBegin(h, rec, s, name, input)
    requires BeginSpan(h, rec, name, kind, input).0.log <= log
    ensures var (rec', reply) := BeginSpan(h, rec, name, kind, input);
            var (rep', reply') := BeginSpan(h', rep, name, kind, input);
            && Sync(exact, Shade(h, log, rec, s, Begin(name, kind, input)), rec', rep', log)
            && reply' == reply && rep'.ran == rep.ran && rep'.grants == rep.grants
  {
    hide BeginSpan, Sync, Consulted, SlotFor;
    var key := Key(name, input);
    SyncPlaces(exact, s, rec, rep, log);
    AskSimulated(exact, s, rec, rep, log, name, key);
    FacadeBeginIs(h, rec, name, kind, input);
    var rec1, rep1 := rec.(spanN := rec.spanN + 1), rep.(spanN := rep.spanN + 1);
    var r := BeginOf(rec1, name, input);
    AtTheBegin(rec, rep, log, r, name, key);
    FacadeBeginIs(h', rep, name, kind, input);
    var m, m' := Consulted(rec.spanMocks, rec.stack, name, key), Consulted(rep.spanMocks, rep.stack, name, key);
    var f := FrameOf(rec1, name, kind, false, SlotFor(rec.spanMocks, rec.stack, name, key));
    var f' := FrameOf(rep1, name, kind, false, SlotFor(rep.spanMocks, rep.stack, name, key));
    var s1 := s.(mocks := Consulted(s.mocks, rec.stack, name, key));
    assert s1.mocks + [] == s1.mocks && m + [] == m && m' + [] == m';
    PushSimulated(exact, s1, Shadow(s1.mocks, s1.touched + [false], s1.reloaded + [true]), rec.(spanMocks := m),
        rep.(spanMocks := m'), log,
                  BeginSpan(h, rec, name, kind, input).0, BeginSpan(h', rep, name, kind, input).0, r, f, f', [], []);
  }

  lemma BeginSimulated(exact: bool, s: Shadow, h: Host, h': Host, rec: State, rep: State, log: seq<Trace.Record>,
                       name: string, kind: Option<string>, input: Json)
    requires Sync(exact, s, rec, rep, log) && FaithfulBegin(h, rec, s, name, input)
    requires MockSpecOf(input).Some? ==> SpecReloads(h, h', log, MockSpecOf(input).value)
    requires exact ==> MocksAside(h, log, rec, Begin(name, kind, input))
    requires BeginSpan(h, rec, name, kind, input).0.log <= log
    ensures var (rec', reply) := BeginSpan(h, rec, name, kind, input);
            var (rep', reply') := BeginSpan(h', rep, name, kind, input);
            && Sync(exact, Shade(h, log, rec, s, Begin(name, kind, input)), rec', rep', log)
            && reply' == reply && rep'.ran == rep.ran && rep'.grants == rep.grants
  {
    hide BeginSpan, Sync, SpecReloads, Shade, MocksAside;
    if MockSpecOf(input).Some? {
      SpecBeginSimulated(exact, s, h, h', rec, rep, log, name, kind, input);
    } else {
      FacadeBeginSimulated(exact, s, h, h', rec, rep, log, name, kind, input);
    }
  }

  lemma SyncPlaces(exact: bool, s: Shadow, rec: State, rep: State, log: seq<Trace.Record>)
    requires Sync(exact, s, rec, rep, log)
    ensures rep.spanN == rec.spanN && rep.cell == rec.cell && TopId(rep) == TopId(rec) && rep.cursor == Cursor(log,
        |rec.log|)
    ensures rep.spanMocks == s.mocks && !rec.mode.Replay? && rep.mode.Replay?
  {
    hide Tracks, EraseAll;
    SameTop(exact, s, rec, rep, log);
  }

  lemma AtTheBegin(rec: State, rep: State, log: seq<Trace.Record>, r: Trace.Record, name: string, key: Key)
    requires rep.cursor == Cursor(log, |rec.log|) && rec.log + [r] <= log
    requires r.SpanBegin? && r.name == name && r.key == key
    ensures rep.cursor.AtBegin(name, key)
  {
    assert log[|rec.log|] == (rec.log + [r])[|rec.log|];
  }

  /** The end record of a closing frame. */
  function EndOf(h: Host, st: State, top: Frame, ok: bool, output: Json, error: Json): Trace.Record {
    SpanEnd(top.id, top.name, st.cell, ok, output, error, EndMeta(h, st, top))
  }

  /** What closing leaves: the frame popped, its index dropped, a served span counted. */
  function AfterClose(h: Host, st: State, ok: bool, output: Json, error: Json): State
    requires st.stack != []
  {
    var top, rest := st.stack[|st.stack| - 1], st.stack[..|st.stack| - 1];
    var mocks := if top.ownsMock && |st.spanMocks| > 0 then st.spanMocks[..|st.spanMocks| - 1] else st.spanMocks;
    st.(stack := if top.served.Some? then BumpFrames(rest, One(Read, true)) else rest, spanMocks := mocks,
        log := st.log + [EndOf(h, st, top, ok, output, error)])
  }

  lemma CloseIs(h: Host, st: State, st1: State, ok: bool, output: Json, error: Json)
    requires st.stack != [] && st1 == st.(stack := st.stack[..|st.stack| - 1], cursor := st1.cursor)
    ensures CloseSpan(h, st1, st.stack[|st.stack| - 1], ok, output, error) ==
            (AfterClose(h, st, ok, output, error).(cursor := st1.cursor), Ended(EndMeta(h, st,
                st.stack[|st.stack| - 1])))
  {
    hide Hits, BumpFrames;
  }

  lemma EndRecordAlike(exact: bool, s: Shadow, h: Host, h': Host, rec: State, rep: State, log: seq<Trace.Record>,
                       ok: bool, output: Json, error: Json)
    requires Sync(exact, s, rec, rep, log) && rec.stack != []
    ensures |rep.stack| == |rec.stack|
    ensures var top, top' := rec.stack[|rec.stack| - 1], rep.stack[|rec.stack| - 1];
            && SameFrame(top, top')
            && Blur(exact, EndMeta(h', rep, top')) == Blur(exact, EndMeta(h, rec, top))
            && Erase(exact, EndOf(h', rep, top', ok, output, error)) == Erase(exact, EndOf(h, rec, top, ok, output,
                error))
  {
    hide EraseAll, Hits, Level, Untouched, OwnedMocks;
    assert SameFrame(rec.stack[|rec.stack| - 1], rep.stack[|rec.stack| - 1]);
  }

  lemma CloseSimulated(exact: bool, s: Shadow, h: Host, h': Host, rec: State, rep: State, log: seq<Trace.Record>,
                       ok: bool, output: Json, error: Json)
    requires Sync(exact, s, rec, rep, log) && rec.stack != [] && AfterClose(h, rec, ok, output, error).log <= log
    ensures |rep.stack| == |rec.stack|
    ensures rep.cursor.AtEnd(rep.stack[|rec.stack| - 1].name, ok)
    ensures Sync(exact, Popped(rec.stack, s), AfterClose(h, rec, ok, output, error),
                 AfterClose(h', rep, ok, output, error).(cursor := rep.cursor.Advance()), log)
  {
    hide EraseAll, EndMeta, Erase, BumpFrames, Blur, Tracks;
    EndRecordAlike(exact, s, h, h', rec, rep, log, ok, output, error);
    var n := |rec.stack| - 1;
    var top, top' := rec.stack[n], rep.stack[n];
    var r, r' := EndOf(h, rec, top, ok, output, error), EndOf(h', rep, top', ok, output, error);
    assert log[|rec.log|] == r;
    EraseSnoc(exact, rec.log, r, rep.log, r');
    PopTracks(exact, s, rec.stack, rep.stack, rec.spanMocks);
    MocksPop(exact, s, rec.stack, rep.stack, rec.spanMocks);
    var m := if top.ownsMock then rec.spanMocks[..|rec.spanMocks| - 1] else rec.spanMocks;
    BumpTracks(exact, Popped(rec.stack, s), rec.stack[..n], rep.stack[..n], m, One(Read, true));
  }

  lemma MocksPop(exact: bool, s: Shadow, a: seq<Frame>, b: seq<Frame>, m: seq<MockIndex>)
    requires Tracks(exact, s, a, b, m) && a != []
    ensures |b| == |a| && |s.mocks| == |m| && SameFrame(a[|a| - 1], b[|a| - 1])
  {
    hide Level, Untouched, OwnedMocks, Behind;
  }

  lemma EndIs(h: Host, st: State, ok: bool, output: Json, error: Json)
    requires st.stack != []
    ensures var top := st.stack[|st.stack| - 1];
            && (!st.mode.Replay? ==>
                  EndSpan(h, st, ok, output, error) == (AfterClose(h, st, ok, output, error), Ended(EndMeta(h, st,
                      top))))
            && (st.mode.Replay? && st.cursor.AtEnd(top.name, ok) ==>
                  EndSpan(h, st, ok, output, error) ==
                  (AfterClose(h, st, ok, output, error).(cursor := st.cursor.Advance()), Ended(EndMeta(h, st, top))))
  {
    hide CloseSpan, AfterClose, EndMeta;
    var n := |st.stack| - 1;
    CloseIs(h, st, st.(stack := st.stack[..n]), ok, output, error);
    CloseIs(h, st, st.(stack := st.stack[..n], cursor := st.cursor.Advance()), ok, output, error);
    ClosedKeeps(h, st, ok, output, error);
  }

  lemma OpenEndSimulated(exact: bool, s: Shadow, h: Host, h': Host, rec: State, rep: State, log: seq<Trace.Record>,
                         ok: bool, output: Json, error: Json)
    requires Sync(exact, s, rec, rep, log) && EndSpan(h, rec, ok, output, error).0.log <= log && rec.stack != []
    ensures var (rec', reply) := EndSpan(h, rec, ok, output, error);
            var (rep', reply') := EndSpan(h', rep, ok, output, error);
            && Sync(exact, Popped(rec.stack, s), rec', rep', log)
            && Visible(exact, reply') == Visible(exact, reply) && rep'.ran == rep.ran && rep'.grants == rep.grants
            && reply'.Ended? && reply.Ended?
  {
    hide AfterClose, Sync, EndMeta, EndSpan, Popped, Blur;
    SameHeight(exact, s, rec, rep, log);
    SyncModes(exact, s, rec, rep, log, h, h);
    EndIs(h, rec, ok, output, error);
    EndRecordAlike(exact, s, h, h', rec, rep, log, ok, output, error);
    CloseSimulated(exact, s, h, h', rec, rep, log, ok, output, error);
    EndIs(h', rep, ok, output, error);
    ClosedKeeps(h', rep, ok, output, error);
  }

  lemma EndSimulated(exact: bool, s: Shadow, h: Host, h': Host, rec: State, rep: State, log: seq<Trace.Record>,
                     ok: bool, output: Json, error: Json)
    requires Sync(exact, s, rec, rep, log) && EndSpan(h, rec, ok, output, error).0.log <= log
    ensures var (rec', reply) := EndSpan(h, rec, ok, output, error);
            var (rep', reply') := EndSpan(h', rep, ok, output, error);
            && Sync(exact, Shade(h, log, rec, s, End(ok, output, error)), rec', rep', log)
            && Visible(exact, reply') == Visible(exact, reply) && rep'.ran == rep.ran && rep'.grants == rep.grants
            && reply'.Failed? == reply.Failed? == (rec.stack == [])
  {
    hide Sync, CloseSpan, Popped;
    SameHeight(exact, s, rec, rep, log);
    if rec.stack != [] { OpenEndSimulated(exact, s, h, h', rec, rep, log, ok, output, error); }
  }

  lemma SameHeight(exact: bool, s: Shadow, rec: State, rep: State, log: seq<Trace.Record>)
    requires Sync(exact, s, rec, rep, log)
    ensures |rep.stack| == |rec.stack| == |s.touched| == |s.reloaded|
    ensures rec.stack == [] ==> s.mocks == []
  {
  }

  lemma ClosedKeeps(h: Host, st: State, ok: bool, output: Json, error: Json)
    requires st.stack != []
    ensures var st' := AfterClose(h, st, ok, output, error);
            st'.ran == st.ran && st'.grants == st.grants && st'.cursor == st.cursor && st'.mode == st.mode
            && |st'.stack| == |st.stack| - 1 && st.log <= st'.log
  {
    hide EndMeta;
  }

  lemma EndGrows(h: Host, st: State, ok: bool, output: Json, error: Json)
    requires !st.mode.Replay?
    ensures var st' := EndSpan(h, st, ok, output, error).0;
            st.log <= st'.log && st'.mode == st.mode && (st.stack != [] ==> |st'.stack| == |st.stack| - 1)
  {
    hide AfterClose, EndMeta;
    if st.stack != [] {
      hide EndSpan;
      EndIs(h, st, ok, output, error);
      ClosedKeeps(h, st, ok, output, error);
    }
  }

  // --- cells ---

  lemma {:induction false} CloseAllGrows(h: Host, st: State, cell: string)
    requires !st.mode.Replay?
    ensures var (st', failure) := CloseAll(h, st, cell);
            st.log <= st'.log && st'.mode == st.mode && failure.None? && st'.stack == []
    decreases |st.stack|
  {
    if st.stack != [] {
      EndGrows(h, st, false, Null, UnclosedSpan(cell));
      CloseAllGrows(h, EndSpan(h, st, false, Null, UnclosedSpan(cell)).0, cell);
    }
  }

  lemma {:induction false} CloseAllSimulated(exact: bool, s: Shadow, h: Host, h': Host, rec: State, rep: State,
                                             log: seq<Trace.Record>, cell: string)
    requires Sync(exact, s, rec, rep, log) && CloseAll(h, rec, cell).0.log <= log
    ensures var (rec', failure) := CloseAll(h, rec, cell);
            var (rep', failure') := CloseAll(h', rep, cell);
            && Sync(exact, UNSHADED, rec', rep', log) && failure.None? && failure'.None?
            && rep'.ran == rep.ran && rep'.grants == rep.grants
    decreases |rec.stack|
  {
    hide EndSpan, Sync;
    SameHeight(exact, s, rec, rep, log);
    if rec.stack != [] {
      var rec1, rep1 := EndSpan(h, rec, false, Null, UnclosedSpan(cell)), EndSpan(h', rep, false, Null,
          UnclosedSpan(cell));
      SyncModes(exact, s, rec, rep, log, h, h);
      EndGrows(h, rec, false, Null, UnclosedSpan(cell));
      CloseAllGrows(h, rec1.0, cell);
      EndSimulated(exact, s, h, h', rec, rep, log, false, Null, UnclosedSpan(cell));
      CloseAllSimulated(exact, Popped(rec.stack, s), h, h', rec1.0, rep1.0, log, cell);
    } else {
      assert s == UNSHADED;
    }
  }

  lemma CellSimulated(exact: bool, rec: State, rep: State, log: seq<Trace.Record>, r: Trace.Record)
    requires Sync(exact, UNSHADED, rec, rep, log) && r.Cell? && rec.log + [r] <= log
    ensures rep.cursor.AtCell(r.cellId, r.ok)
    ensures Sync(exact, UNSHADED, Write(rec, r), Write(rep.(cursor := rep.cursor.Advance()), r), log)
  {
    hide Tracks, EraseAll;
    assert log[|rec.log|] == r;
    EraseSnoc(exact, rec.log, r, rep.log, r);
  }

  lemma FinishSimulated(exact: bool, s: Shadow, h: Host, h': Host, rec: State, rep: State, log: seq<Trace.Record>,
                        cell: string, ok: bool, error: Json, interrupted: bool)
    requires Sync(exact, s, rec, rep, log) && FinishCell(h, rec, cell, ok, error, interrupted).0.log <= log
    ensures var (rec', reply) := FinishCell(h, rec, cell, ok, error, interrupted);
            var (rep', reply') := FinishCell(h', rep, cell, ok, error, interrupted);
            && Sync(exact, UNSHADED, rec', rep', log) && reply' == reply && rep'.ran == rep.ran
                && rep'.grants == rep.grants
  {
    hide CloseAll, Sync;
    var (rec1, failure) := CloseAll(h, rec, cell);
    var rep1 := CloseAll(h', rep, cell).0;
    var r := Cell(cell, ok, error, interrupted);
    SyncModes(exact, s, rec, rep, log, h, h);
    CloseAllGrows(h, rec, cell);
    assert rec1.log + [r] <= log;
    assert rec1.log <= log;
    CloseAllSimulated(exact, s, h, h', rec, rep, log, cell);
    SyncModes(exact, UNSHADED, rec1, rep1, log, h, h);
    CellSimulated(exact, rec1, rep1, log, r);
  }

  // --- one step ---

  /** What makes a recorded operation one a replay gives back, read off the recording, its
      shadow and -- for mocked blob reads -- the directory of the replay. */
  predicate Faithful(h: Host, h': Host, st: State, s: Shadow, op: Op) {
    match op
    case Begin(name, _, input) => FaithfulBegin(h, st, s, name, input)
    case Do(name, given) => FaithfulCall(h, h', st, name, given)
    case _ => true
  }

  ghost predicate OpReloads(h: Host, h': Host, log: seq<Trace.Record>, op: Op) {
    op.Begin? && MockSpecOf(op.input).Some? ==> SpecReloads(h, h', log, MockSpecOf(op.input).value)
  }

  /** One operation, recorded and replayed, keeps the two brokers in step and answers alike. */
  lemma StepSimulated(exact: bool, s: Shadow, h: Host, h': Host, rec: State, rep: State, log: seq<Trace.Record>, op: Op)
    requires Sync(exact, s, rec, rep, log) && SameRuntime(h, h') && Granted(h', rep.grants, log)
    requires Faithful(h, h', rec, s, op) && OpReloads(h, h', log, op) && (exact ==> MocksAside(h, log, rec, op))
    requires Step(h, rec, op).0.log <= log
    ensures var (rec', reply) := Step(h, rec, op);
            var (rep', reply') := Step(h', rep, op);
            && Sync(exact, Shade(h, log, rec, s, op), rec', rep', log)
                && Visible(exact, reply') == Visible(exact, reply)
            && OnlyBlobReads(rep.ran, rep'.ran) && rep'.grants == rep.grants
  {
    hide Call, BeginSpan, EndSpan, FinishCell, Sync, SameRuntime, Granted, FaithfulBegin, FaithfulCall, SpecReloads,
         MocksAside, Shade;
    match op
    case Begin(name, kind, input) => BeginSimulated(exact, s, h, h', rec, rep, log, name, kind, input);
    case End(ok, output, error) => EndSimulated(exact, s, h, h', rec, rep, log, ok, output, error);
    case Do(name, payload) => CallSimulated(exact, s, h, h', rec, rep, log, name, payload);
    case CellDone(cell, ok, error, interrupted) =>
      FinishSimulated(exact, s, h, h', rec, rep, log, cell, ok, error, interrupted);
      assert Shade(h, log, rec, s, op) == UNSHADED by { CellShade(h, log, rec, s, op); }
  }

  lemma CellShade(h: Host, log: seq<Trace.Record>, st: State, s: Shadow, op: Op)
    requires op.CellDone?
    ensures Shade(h, log, st, s, op) == UNSHADED
  {
  }
}
