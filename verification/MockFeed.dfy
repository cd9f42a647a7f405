/** A trace feeds a mock run: loaded into an index, it answers the same guest's calls with
    what it has queued for them, while the plumbing runs live. */
module MockFeed {
  import opened Options
  import opened Json
  import opened Trace
  import opened Mocks
  import opened MockSpecs
  import opened Pipeline
  import opened Stretch
  import opened FanOut
  import opened Nesting
  import opened Shadows
  import opened CallRecords
  import opened Replaying
  import opened ReplayRuns
  import opened PlainReplay

  // --- a call in a mock run ---

  /** Everything mockable, a miss fails; answers by input, each once. */
  ghost predicate PlainIndex(idx: MockIndex) {
    && idx.only == [] && idx.except == [] && idx.unmatched == Fail
    && forall name: string, k: MockKey :: (k.Wildcard? ==> Queue(idx, name, k) == [])
        && forall slot | slot in Queue(idx, name, k) :: !slot.repeats
  }

  /** Plumbing runs live: the boot effect gives back its payload, the rest is the world's. */
  function PlumbingReply(h: Host, n: nat, name: string, payload: Json): Result<Json, Failure> {
    if name == "kernel.boot" then Ok(payload)
    else if Known(name) then h.answer(n, name, payload).result
    else Err(Failure(UNKNOWN, "no such effect: " + name))
  }

  /** Answer i of a queue, if there are as many. */
  function QueueReply(idx: MockIndex, name: string, payload: Json, i: nat): Result<Json, Failure> {
    var q := Queue(idx, name, Exact(Key(name, payload)));
    if i < |q| then Recorded(q[i].rec) else Err(NoMock(name))
  }

  /** A mock run before one of its calls: no span-scoped index, no grants. */
  predicate MockRunning(st: State) {
    st.mode.Mock? && st.spanMocks == [] && st.hosted == 0 && st.grants.None? && st.mockIndex.Some?
  }

  /** What a call may change besides. */
  ghost predicate Goes(st: State, st': State) {
    && st' == st.(mockIndex := st'.mockIndex, log := st'.log, stack := st'.stack, mutations := st'.mutations,
        ran := st'.ran)
    && SameShape(st.stack, st'.stack)
  }

  lemma BumpGoes(st: State, cls: Class, mocked: bool, end: State)
    requires end == Bump(st, cls, mocked).(log := end.log)
    ensures Goes(st, end) && end.mockIndex == st.mockIndex && end.ran == st.ran
  {
  }

  lemma DecidesMockable(idx: MockIndex, name: string, facades: seq<string>)
    requires PlainIndex(idx) && !NeverMockable(name)
    ensures Decide(idx, name, facades) == Mockable && Counted(idx, Mockable) == idx
  {
  }

  lemma PlainTakes(idx: MockIndex, name: string, key: Key)
    requires PlainIndex(idx)
    ensures var (after, slot) := Take(idx, name, key);
            var q := Queue(idx, name, Exact(key));
            && (q == [] ==> slot == None && after == idx)
            && (q != [] ==> slot == Some(q[0]) && Queue(after, name, Exact(key)) == q[1..])
            && PlainIndex(after)
            && forall name', k' | (name', k') != (name, Exact(key)) :: Queue(after, name', k') == Queue(idx, name', k')
  {
    var after := Take(idx, name, key).0;
    assert Queue(idx, name, Wildcard) == [];
    forall name', k' | (name', k') != (name, Exact(key)) ensures Queue(after, name', k') == Queue(idx, name', k') {
      TakeTouchesOneQueue(idx, name, key, (name', k'));
    }
  }

  /** A mockable call is answered from its queue, or refused; nothing runs. */
  lemma MockableCall(h: Host, st: State, name: string, payload: Json)
    requires MockRunning(st) && PlainIndex(st.mockIndex.value) && !NeverMockable(name)
    ensures var (st', reply) := CallAdmitted(h, st, name, payload, Classify(h, name, payload));
            && reply == QueueReply(st.mockIndex.value, name, payload, 0)
            && st'.mockIndex == Some(Take(st.mockIndex.value, name, Key(name, payload)).0)
            && Goes(st, st') && st'.ran == st.ran
  {
    hide Decide, Take, NeverMockable, CallLive, Classify, Counted, Goes, Bump, PlainIndex;
    var idx := st.mockIndex.value;
    DecidesMockable(idx, name, Facades(st.stack));
    PlainTakes(idx, name, Key(name, payload));
    UnmatchedFails(idx);
    var taken := st.(mockIndex := Some(Take(idx, name, Key(name, payload)).0));
    var end := CallAdmitted(h, st, name, payload, Classify(h, name, payload)).0;
    BumpGoes(taken, Classify(h, name, payload), true, Bump(taken, Classify(h, name, payload), true).(log := end.log));
    BumpGoes(taken, Classify(h, name, payload), false, Bump(taken, Classify(h, name, payload), false).(log := end.log));
    GoesFrom(st, taken, end);
  }

  lemma UnmatchedFails(idx: MockIndex)
    requires PlainIndex(idx)
    ensures idx.unmatched == Fail
  {
  }

  lemma GoesFrom(st: State, taken: State, end: State)
    requires Goes(taken, end) && taken == st.(mockIndex := taken.mockIndex)
    ensures Goes(st, end)
  {
  }

  lemma PlumbingIsPlain(name: string)
    requires NeverMockable(name)
    ensures !IsHttp(name) && name !in {"batch", "oauth.refresh", "blob.read", "blob.put"}
  {
    assert "span."[0] == 's' && "trace."[0] == 't' && "http."[0] == 'h' && "batch"[0] == 'b'
        && "oauth.refresh"[0] == 'o';
    assert "blob.read"[0] == 'b' && "blob.put"[0] == 'b' && "module.resolve"[0] == 'm' && "kernel.boot"[0] == 'k';
    assert "runtime.get"[0] == 'r' && "mailbox.drain"[0] == 'm' && "fuel.state"[0] == 'f';
  }

  lemma PlumbingLive(h: Host, st: State, name: string, payload: Json, cls: Class)
    requires NeverMockable(name)
    ensures CallAdmitted(h, st, name, payload, cls) == CallLive(h, st, name, payload, cls, false)
  {
    assert ConsultMock(st, name, Key(name, payload)) == (st, Plain);
  }

  lemma PlumbingExecutes(h: Host, st: State, name: string, payload: Json)
    requires NeverMockable(name)
    ensures Execute(h, st, name, payload) == (LogRun(st, name, payload), PlumbingReply(h, |st.ran|, name, payload))
  {
    hide CallHosted, Batch, NeverMockable, Known;
    PlumbingIsPlain(name);
  }

  /** Plumbing runs, itself and nothing else. */
  lemma PlumbingCall(h: Host, st: State, name: string, payload: Json)
    requires NeverMockable(name)
    ensures var (st', reply) := CallAdmitted(h, st, name, payload, Classify(h, name, payload));
            && reply == PlumbingReply(h, |st.ran|, name, payload)
            && st'.mockIndex == st.mockIndex && Goes(st, st')
            && st'.ran == st.ran + [Execution(name, payload, st.hosted > 0)]
  {
    hide CallAdmitted, Execute, NeverMockable, Classify, Goes, Bump, PlumbingReply;
    var cls := Classify(h, name, payload);
    var up := Bump(st, cls, false);
    PlumbingLive(h, st, name, payload, cls);
    PlumbingExecutes(h, up, name, payload);
    BumpKeepsDepth(st, cls);
    BumpGoes(st, cls, false, up);
    RunGoes(st, up, CallLive(h, st, name, payload, cls, false).0);
  }

  lemma RunGoes(st: State, up: State, end: State)
    requires Goes(st, up) && end == up.(ran := end.ran, log := end.log)
    ensures Goes(st, end)
  {
  }

  // --- in step with the recording ---

  /** Of the reply to an end, only the kind: the counts say what ran inside. */
  function Dim(r: Reply): Reply {
    if r.Ended? then Ended(SpanMeta(0, 0, 0, 0, None, None, r.meta.kind)) else r
  }

  function DimAll(rs: seq<Reply>): seq<Reply> {
    seq(|rs|, i requires 0 <= i < |rs| => Dim(rs[i]))
  }

  /** The guest does not branch on what a span counted or how long it took. */
  ghost predicate BlindToCounts(g: Guest) {
    forall a, b :: DimAll(a) == DimAll(b) ==> g(a) == g(b)
  }

  predicate SameSpans(a: seq<Frame>, b: seq<Frame>) {
    |b| == |a| && forall i | 0 <= i < |a| ::
      && b[i].id == a[i].id && b[i].name == a[i].name && b[i].kind == a[i].kind
      && !b[i].ownsMock && b[i].served.None? && !a[i].ownsMock && a[i].served.None?
  }

  function Rest(q: seq<Slot>, n: nat): seq<Slot> { if n <= |q| then q[n..] else [] }

  /** A call of that key, as far as the mocks. */
  predicate Calls(h: Host, op: Op, key: Key) {
    op.Do? && Materialises(h, op.name, op.payload) && Key(op.name, Payload(h, op.name, op.payload)) == key
  }

  predicate Plumbs(op: Op) { op.Do? && NeverMockable(op.name) }

  /** What is left of the index after so many calls of each key. */
  ghost predicate Left(built: MockIndex, idx: MockIndex, asked: Key -> nat) {
    && PlainIndex(idx)
    && forall key: Key | !NeverMockable(key.name) ::
         Queue(idx, key.name, Exact(key)) == Rest(Queue(built, key.name, Exact(key)), asked(key))
  }

  ghost predicate OnlyPlumbing(ran: seq<Execution>) { forall i | 0 <= i < |ran| :: NeverMockable(ran[i].name) }

  ghost predicate InFeed(rec: State, rep: State, built: MockIndex, asked: Key -> nat, plumbed: nat) {
    && !rec.mode.Replay? && rec.spanMocks == [] && MockRunning(rep) && rep.spanN == rec.spanN
    && SameSpans(rec.stack, rep.stack) && Left(built, rep.mockIndex.value, asked)
    && |rep.ran| == plumbed && OnlyPlumbing(rep.ran)
  }

  /** The counts after one more operation. */
  ghost predicate CountsNext(h: Host, op: Op, asked: Key -> nat, asked': Key -> nat, plumbed: nat, plumbed': nat) {
    && plumbed' == plumbed + (if Plumbs(op) then 1 else 0)
    && forall key :: asked'(key) == asked(key) + if Calls(h, op, key) then 1 else 0
  }

  /** The reply a mock run gives: the queue's next, or the plumbing's own. */
  function MockReply(h: Host, built: MockIndex, name: string, payload: Json, i: nat, j: nat): Result<Json, Failure> {
    if NeverMockable(name) then PlumbingReply(h, j, name, payload) else QueueReply(built, name, payload, i)
  }

  lemma SpansStay(rec: State, rec': State, rep: State, rep': State)
    requires Within(rec, rec') && SameShape(rep.stack, rep'.stack) && SameSpans(rec.stack, rep.stack)
             && rec.spanMocks == []
    ensures SameSpans(rec'.stack, rep'.stack) && rec'.mode == rec.mode
    ensures rec'.spanN == rec.spanN && rec'.spanMocks == []
  {
    forall i | 0 <= i < |rec.stack| ensures
      && rep'.stack[i] == rep.stack[i].(tally := rep'.stack[i].tally)
      && rec'.stack[i] == rec.stack[i].(tally := rec'.stack[i].tally)
    {
    }
  }

  lemma QueueNow(built: MockIndex, idx: MockIndex, asked: Key -> nat, name: string, payload: Json)
    requires Left(built, idx, asked) && !NeverMockable(name)
    ensures QueueReply(idx, name, payload, 0) == QueueReply(built, name, payload, asked(Key(name, payload)))
  {
    hide Queue, NeverMockable, Recorded;
    var key := Key(name, payload);
    assert Queue(idx, key.name, Exact(key)) == Rest(Queue(built, key.name, Exact(key)), asked(key));
  }

  lemma LeftAfter(built: MockIndex, idx: MockIndex, asked: Key -> nat, asked': Key -> nat, name: string, key: Key)
    requires Left(built, idx, asked) && key.name == name && !NeverMockable(name)
    requires forall k :: asked'(k) == asked(k) + if k == key then 1 else 0
    ensures Left(built, Take(idx, name, key).0, asked')
  {
    hide Queue, NeverMockable, Take, PlainIndex;
    PlainTakes(idx, name, key);
    var after := Take(idx, name, key).0;
    forall k: Key | !NeverMockable(k.name)
      ensures Queue(after, k.name, Exact(k)) == Rest(Queue(built, k.name, Exact(k)), asked'(k))
    {
      assert Queue(idx, k.name, Exact(k)) == Rest(Queue(built, k.name, Exact(k)), asked(k));
      if k == key { RestNext(Queue(built, name, Exact(key)), asked(key)); }
    }
  }

  lemma RestNext(q: seq<Slot>, n: nat)
    ensures Rest(q, n + 1) == if Rest(q, n) == [] then [] else Rest(q, n)[1..]
  {
  }

  lemma LeftAgain(built: MockIndex, idx: MockIndex, asked: Key -> nat, asked': Key -> nat)
    requires Left(built, idx, asked) && forall k: Key | !NeverMockable(k.name) :: asked'(k) == asked(k)
    ensures Left(built, idx, asked')
  {
  }

  /** The mock run's side of a call. */
  lemma CallInMockRun(h: Host, rep: State, built: MockIndex, asked: Key -> nat, asked': Key -> nat, plumbed: nat,
                      plumbed': nat,
                      name: string, given: Json)
    requires MockRunning(rep) && Left(built, rep.mockIndex.value, asked) && |rep.ran| == plumbed
             && OnlyPlumbing(rep.ran)
    requires CountsNext(h, Do(name, given), asked, asked', plumbed, plumbed')
    ensures var (rep', reply) := Call(h, rep, name, given);
            && Goes(rep, rep') && MockRunning(rep') && Left(built, rep'.mockIndex.value, asked')
            && |rep'.ran| == plumbed' && OnlyPlumbing(rep'.ran)
            && (Materialises(h, name, given) ==>
                  var payload := Payload(h, name, given);
                  reply == MockReply(h, built, name, payload, asked(Key(name, payload)), plumbed))
  {
    hide CallAdmitted, Left, Take, NeverMockable, Classify, QueueReply, PlumbingReply, WriteRefusal, ReplayCall;
    if !Materialises(h, name, given) {
      assert !Plumbs(Do(name, given)) by { if NeverMockable(name) { PlumbingIsPlain(name); } }
      LeftAgain(built, rep.mockIndex.value, asked, asked');
    } else {
      var payload := Payload(h, name, given);
      assert Call(h, rep, name, given) == CallAdmitted(h, rep, name, payload, Classify(h, name, payload));
      var op := Do(name, given);
      if NeverMockable(name) {
        PlumbingCall(h, rep, name, payload);
        NoMockableCall(h, op);
        LeftAgain(built, rep.mockIndex.value, asked, asked');
      } else {
        LeftIsPlain(built, rep.mockIndex.value, asked);
        MockableCall(h, rep, name, payload);
        QueueNow(built, rep.mockIndex.value, asked, name, payload);
        LeftAfter(built, rep.mockIndex.value, asked, asked', name, Key(name, payload));
      }
    }
  }

  lemma NoMockableCall(h: Host, op: Op)
    requires Plumbs(op)
    ensures forall key: Key | !NeverMockable(key.name) :: !Calls(h, op, key)
  {
  }

  lemma LeftIsPlain(built: MockIndex, idx: MockIndex, asked: Key -> nat)
    requires Left(built, idx, asked)
    ensures PlainIndex(idx)
  {
  }

  lemma DoFed(h: Host, h': Host, rec: State, rep: State, built: MockIndex, asked: Key -> nat, asked': Key -> nat,
              plumbed: nat, plumbed': nat, name: string, given: Json)
    requires InFeed(rec, rep, built, asked, plumbed) && h'.materialize == h.materialize
    requires CountsNext(h, Do(name, given), asked, asked', plumbed, plumbed')
    ensures var (rec', reply) := Step(h, rec, Do(name, given));
            var (rep', reply') := Step(h', rep, Do(name, given));
            && InFeed(rec', rep', built, asked', plumbed') && !reply.Ended? && !reply'.Ended?
            && (!Materialises(h, name, given) ==> reply' == reply)
            && (Materialises(h, name, given) ==>
                  var payload := Payload(h, name, given);
                  reply' == ReplyOf(MockReply(h', built, name, payload, asked(Key(name, payload)), plumbed)))
  {
    hide CallAdmitted, Left, OnlyPlumbing, Within, WriteRefusal, ReplayCall, Classify, BeginSpan, EndSpan, FinishCell,
         SameSpans,
         MockReply, NeverMockable;
    assert CountsNext(h', Do(name, given), asked, asked', plumbed, plumbed') by { SameCalls(h, h', Do(name, given)); }
    CallInMockRun(h', rep, built, asked, asked', plumbed, plumbed', name, given);
    CallIsStretch(h, rec, name, given);
    SpansStay(rec, Call(h, rec, name, given).0, rep, Call(h', rep, name, given).0);
  }

  lemma SameCalls(h: Host, h': Host, op: Op)
    requires h'.materialize == h.materialize
    ensures forall key :: Calls(h', op, key) == Calls(h, op, key)
  {
  }

  // --- spans and cells ---

  /** Neither side called anything, and the spans are alike. */
  lemma Passed(rec: State, rep: State, built: MockIndex, asked: Key -> nat, plumbed: nat, rec': State, rep': State)
    requires InFeed(rec, rep, built, asked, plumbed)
    requires rec' == rec.(log := rec'.log, spanN := rec'.spanN, stack := rec'.stack)
    requires rep' == rep.(log := rep'.log, spanN := rec'.spanN, stack := rep'.stack)
    requires SameSpans(rec'.stack, rep'.stack)
    ensures InFeed(rec', rep', built, asked, plumbed)
  {
    hide Left, OnlyPlumbing;
  }

  lemma BeginFed(h: Host, h': Host, rec: State, rep: State, built: MockIndex, asked: Key -> nat, plumbed: nat,
                 name: string, kind: Option<string>, input: Json)
    requires InFeed(rec, rep, built, asked, plumbed) && MockSpecOf(input).None?
    ensures var (rec', reply) := BeginSpan(h, rec, name, kind, input);
            var (rep', reply') := BeginSpan(h', rep, name, kind, input);
            InFeed(rec', rep', built, asked, plumbed) && reply' == reply
  {
    hide BeginSpan, Left, OnlyPlumbing;
    FacadeBeginIs(h, rec, name, kind, input);
    FacadeBeginIs(h', rep, name, kind, input);
    Passed(rec, rep, built, asked, plumbed, BeginSpan(h, rec, name, kind, input).0, BeginSpan(h', rep, name, kind,
        input).0);
  }

  lemma EndFed(h: Host, h': Host, rec: State, rep: State, built: MockIndex, asked: Key -> nat, plumbed: nat,
               ok: bool, output: Json, error: Json)
    requires InFeed(rec, rep, built, asked, plumbed)
    ensures var (rec', reply) := EndSpan(h, rec, ok, output, error);
            var (rep', reply') := EndSpan(h', rep, ok, output, error);
            && InFeed(rec', rep', built, asked, plumbed) && Dim(reply') == Dim(reply)
            && reply'.Failed? == reply.Failed? == (rec.stack == [])
            && (rec.stack != [] ==> |rec'.stack| == |rec.stack| - 1)
  {
    hide Left, OnlyPlumbing, CloseSpan;
    if rec.stack != [] {
      hide EndSpan;
      EndIs(h, rec, ok, output, error);
      EndIs(h', rep, ok, output, error);
      Passed(rec, rep, built, asked, plumbed, EndSpan(h, rec, ok, output, error).0, EndSpan(h', rep, ok, output,
          error).0);
    }
  }

  lemma {:induction false} CloseAllFed(h: Host, h': Host, rec: State, rep: State, built: MockIndex, asked: Key -> nat,
                                       plumbed: nat,
                                       cell: string)
    requires InFeed(rec, rep, built, asked, plumbed)
    ensures var (rec', failure) := CloseAll(h, rec, cell);
            var (rep', failure') := CloseAll(h', rep, cell);
            InFeed(rec', rep', built, asked, plumbed) && failure.None? && failure'.None?
    decreases |rec.stack|
  {
    hide EndSpan, Left, OnlyPlumbing;
    if rec.stack != [] {
      EndFed(h, h', rec, rep, built, asked, plumbed, false, Null, UnclosedSpan(cell));
      CloseAllFed(h, h', EndSpan(h, rec, false, Null, UnclosedSpan(cell)).0,
                  EndSpan(h', rep, false, Null, UnclosedSpan(cell)).0, built, asked, plumbed, cell);
    }
  }

  lemma FinishFed(h: Host, h': Host, rec: State, rep: State, built: MockIndex, asked: Key -> nat, plumbed: nat,
                  cell: string, ok: bool, error: Json, interrupted: bool)
    requires InFeed(rec, rep, built, asked, plumbed)
    ensures var (rec', reply) := FinishCell(h, rec, cell, ok, error, interrupted);
            var (rep', reply') := FinishCell(h', rep, cell, ok, error, interrupted);
            InFeed(rec', rep', built, asked, plumbed) && reply' == reply
  {
    hide CloseAll, Left, OnlyPlumbing;
    CloseAllFed(h, h', rec, rep, built, asked, plumbed, cell);
    Passed(CloseAll(h, rec, cell).0, CloseAll(h', rep, cell).0, built, asked, plumbed,
           FinishCell(h, rec, cell, ok, error, interrupted).0, FinishCell(h', rep, cell, ok, error, interrupted).0);
  }

  lemma InFeedCounts(rec: State, rep: State, built: MockIndex, asked: Key -> nat, asked': Key -> nat, plumbed: nat)
    requires InFeed(rec, rep, built, asked, plumbed) && forall key :: asked'(key) == asked(key)
    ensures InFeed(rec, rep, built, asked', plumbed)
  {
    hide OnlyPlumbing, SameSpans;
    LeftAgain(built, rep.mockIndex.value, asked, asked');
  }

  /** One operation on both sides: alike unless it is a call whose recorded reply is not
      the mock run's. */
  lemma StepFed(h: Host, h': Host, rec: State, rep: State, built: MockIndex, asked: Key -> nat, asked': Key -> nat,
                plumbed: nat, plumbed': nat, op: Op)
    requires InFeed(rec, rep, built, asked, plumbed) && h'.materialize == h.materialize && MockFree(op)
    requires CountsNext(h, op, asked, asked', plumbed, plumbed')
    ensures var (rec', reply) := Step(h, rec, op);
            var (rep', reply') := Step(h', rep, op);
            && InFeed(rec', rep', built, asked', plumbed')
            && (Dim(reply') == Dim(reply) <==>
                op.Do? && Materialises(h, op.name, op.payload) ==>
                  var payload := Payload(h, op.name, op.payload);
                  reply == ReplyOf(MockReply(h', built, op.name, payload, asked(Key(op.name, payload)), plumbed)))
  {
    hide Call, BeginSpan, EndSpan, FinishCell, InFeed, MockReply;
    match op
    case Begin(name, kind, input) =>
      BeginFed(h, h', rec, rep, built, asked, plumbed, name, kind, input);
      InFeedCounts(Step(h, rec, op).0, Step(h', rep, op).0, built, asked, asked', plumbed);
    case End(ok, output, error) =>
      EndFed(h, h', rec, rep, built, asked, plumbed, ok, output, error);
      InFeedCounts(Step(h, rec, op).0, Step(h', rep, op).0, built, asked, asked', plumbed);
    case Do(name, payload) => DoFed(h, h', rec, rep, built, asked, asked', plumbed, plumbed', name, payload);
    case CellDone(cell, ok, error, interrupted) =>
      FinishFed(h, h', rec, rep, built, asked, plumbed, cell, ok, error, interrupted);
      InFeedCounts(Step(h, rec, op).0, Step(h', rep, op).0, built, asked, asked', plumbed);
  }

  // --- whole runs ---

  lemma DimSnoc(a: seq<Reply>, x: Reply, b: seq<Reply>, y: Reply)
    requires DimAll(a) == DimAll(b) && Dim(x) == Dim(y)
    ensures DimAll(a + [x]) == DimAll(b + [y])
  {
    assert |DimAll(a)| == |a| && |DimAll(b)| == |b|;
    assert DimAll(a + [x]) == DimAll(a) + [Dim(x)];
    assert DimAll(b + [y]) == DimAll(b) + [Dim(y)];
  }

  /** How many calls of that key, and of plumbing, the guest made before step k. */
  function CallsBefore(h: Host, st: State, g: Guest, k: nat, key: Key): nat {
    if k == 0 then 0 else CallsBefore(h, st, g, k - 1, key) + if Calls(h, OpAt(h, st, g, k - 1), key) then 1 else 0
  }

  function PlumbingBefore(h: Host, st: State, g: Guest, k: nat): nat {
    if k == 0 then 0 else PlumbingBefore(h, st, g, k - 1) + if Plumbs(OpAt(h, st, g, k - 1)) then 1 else 0
  }

  function AllCallsBefore(h: Host, st: State, g: Guest, k: nat): Key -> nat { (key: Key) => CallsBefore(h, st, g, k,
                          key) }

  /** A recorder at its start, and a mock run against that index. */
  ghost predicate MockStarts(rec: State, rep: State, built: MockIndex) {
    && Fresh(rec) && Fresh(rep) && !rec.mode.Replay? && rep.mode.Mock? && rep.grants.None?
    && rep.mockIndex == Some(built) && PlainIndex(built)
  }

  /** The recorded reply of step k, if it is a call, is the one the mock run has for it:
      answer i of its queue where it is the call after i others of its name and input; for
      plumbing, what that world answers. */
  ghost predicate FedAt(h: Host, h': Host, st: State, g: Guest, k: nat, built: MockIndex) {
    var op := OpAt(h, st, g, k);
    op.Do? && Materialises(h, op.name, op.payload) ==>
      var payload := Payload(h, op.name, op.payload);
      var i, j := CallsBefore(h, st, g, k, Key(op.name, payload)), PlumbingBefore(h, st, g, k);
      Step(h, Go(h, st, g, k).st, op).1 == ReplyOf(MockReply(h', built, op.name, payload, i, j))
  }

  ghost predicate FedRun(h: Host, h': Host, st: State, g: Guest, n: nat, built: MockIndex) {
    forall k: nat | k < n :: FedAt(h, h', st, g, k, built)
  }

  lemma StartsInFeed(rec: State, rep: State, built: MockIndex, asked: Key -> nat)
    requires MockStarts(rec, rep, built) && forall key :: asked(key) == 0
    ensures InFeed(rec, rep, built, asked, 0)
  {
  }

  lemma CountsOn(h: Host, st: State, g: Guest, k: nat)
    ensures CountsNext(h, OpAt(h, st, g, k), AllCallsBefore(h, st, g, k), AllCallsBefore(h, st, g, k + 1),
                     PlumbingBefore(h, st, g, k), PlumbingBefore(h, st, g, k + 1))
  {
    hide Calls, Plumbs, Go;
  }

  /** One more step of both runs. */
  lemma RunsOn(h: Host, h': Host, rec: State, rep: State, g: Guest, k: nat, built: MockIndex)
    requires var a, b := Go(h, rec, g, k), Go(h', rep, g, k);
             InFeed(a.st, b.st, built, AllCallsBefore(h, rec, g, k), PlumbingBefore(h, rec, g, k))
             && DimAll(b.replies) == DimAll(a.replies)
    requires BlindToCounts(g) && h'.materialize == h.materialize && MockFree(OpAt(h, rec, g, k))
    ensures var a, b := Go(h, rec, g, k + 1), Go(h', rep, g, k + 1);
            && InFeed(a.st, b.st, built, AllCallsBefore(h, rec, g, k + 1), PlumbingBefore(h, rec, g, k + 1))
            && (Dim(b.replies[k]) == Dim(a.replies[k]) <==> FedAt(h, h', rec, g, k, built))
            && (FedAt(h, h', rec, g, k, built) ==> DimAll(b.replies) == DimAll(a.replies))
  {
    hide Step, InFeed, DimAll, Dim, CountsNext, MockReply, Materialises, Payload;
    var a, b := Go(h, rec, g, k), Go(h', rep, g, k);
    var op := g(a.replies);
    CountsOn(h, rec, g, k);
    StepFed(h, h', a.st, b.st, built, AllCallsBefore(h, rec, g, k), AllCallsBefore(h, rec, g, k + 1),
            PlumbingBefore(h, rec, g, k), PlumbingBefore(h, rec, g, k + 1), op);
    if FedAt(h, h', rec, g, k, built) {
      DimSnoc(b.replies, Step(h', b.st, op).1, a.replies, Step(h, a.st, op).1);
    }
  }

  lemma {:induction false} FedUpTo(h: Host, h': Host, rec: State, rep: State, g: Guest, n: nat, k: nat,
                                   built: MockIndex)
    requires k <= n && MockStarts(rec, rep, built) && h'.materialize == h.materialize && BlindToCounts(g)
    requires MockFreeRun(h, rec, g, n) && FedRun(h, h', rec, g, k, built)
    ensures var a, b := Go(h, rec, g, k), Go(h', rep, g, k);
            && InFeed(a.st, b.st, built, AllCallsBefore(h, rec, g, k), PlumbingBefore(h, rec, g, k))
            && DimAll(b.replies) == DimAll(a.replies)
  {
    hide Step, InFeed, FedAt, DimAll, MockFree, MockStarts, BlindToCounts;
    if k == 0 {
      StartsInFeed(rec, rep, built, AllCallsBefore(h, rec, g, 0));
    } else {
      assert FedAt(h, h', rec, g, k - 1, built);
      FedUpTo(h, h', rec, rep, g, n, k - 1, built);
      assert MockFree(OpAt(h, rec, g, k - 1));
      RunsOn(h, h', rec, rep, g, k - 1, built);
    }
  }

  lemma {:induction false} FirstUnfed(h: Host, h': Host, st: State, g: Guest, n: nat, built: MockIndex) returns (k: nat)
    requires !FedRun(h, h', st, g, n, built)
    ensures k < n && FedRun(h, h', st, g, k, built) && !FedAt(h, h', st, g, k, built)
  {
    hide FedAt;
    if n > 0 && !FedRun(h, h', st, g, n - 1, built) {
      k := FirstUnfed(h, h', st, g, n - 1, built);
    } else {
      k := n - 1;
    }
  }

  lemma DimAt(rs: seq<Reply>, k: nat)
    requires k < |rs|
    ensures DimAll(rs)[k] == Dim(rs[k])
  {
  }

  /** Exactly when a mock run gives the same guest the recorded replies, but for what spans
      counted and how long they took: when for every call the recording answered what the
      queue of its name and input has in its place -- and, for plumbing, what this world
      answers. */
  lemma MockRunExactly(h: Host, h': Host, rec: State, rep: State, g: Guest, n: nat, built: MockIndex)
    requires MockStarts(rec, rep, built) && h'.materialize == h.materialize && BlindToCounts(g)
             && MockFreeRun(h, rec, g, n)
    ensures DimAll(Go(h', rep, g, n).replies) == DimAll(Go(h, rec, g, n).replies) <==> FedRun(h, h', rec, g, n, built)
  {
    hide Go, InFeed, FedAt, DimAll, MockFree, MockStarts, BlindToCounts;
    if FedRun(h, h', rec, g, n, built) {
      FedUpTo(h, h', rec, rep, g, n, n, built);
    } else {
      var k := FirstUnfed(h, h', rec, g, n, built);
      FedUpTo(h, h', rec, rep, g, n, k, built);
      assert MockFree(OpAt(h, rec, g, k));
      RunsOn(h, h', rec, rep, g, k, built);
      GoPrefix(h, rec, g, k + 1, n);
      GoPrefix(h', rep, g, k + 1, n);
      var a, b := Go(h, rec, g, n).replies, Go(h', rep, g, n).replies;
      assert b[k] == b[..k + 1][k] && a[k] == a[..k + 1][k];
      DimAt(a, k);
      DimAt(b, k);
    }
  }

  /** Whatever the guest does, nothing but plumbing runs live in a mock run. */
  lemma {:induction false} MockRunsOnlyPlumbing(h: Host, st: State, g: Guest, n: nat, built: MockIndex)
    requires MockStarts(st, st, built) && MockFreeRun(h, st, g, n)
    ensures OnlyPlumbing(Go(h, st, g, n).st.ran)
    ensures InFeed(Go(h, st, g, n).st, Go(h, st, g, n).st, built, AllCallsBefore(h, st, g, n), PlumbingBefore(h, st,
            g, n))
  {
    hide Step, OnlyPlumbing, Left, MockFree, MockStarts, MockReply, CountsNext, Materialises, Payload, Dim;
    if n == 0 {
      StartsInFeed(st, st, built, AllCallsBefore(h, st, g, 0));
    } else {
      MockRunsOnlyPlumbing(h, st, g, n - 1, built);
      var here, op := Go(h, st, g, n - 1).st, OpAt(h, st, g, n - 1);
      assert MockFree(op);
      CountsOn(h, st, g, n - 1);
      StepFed(h, h, here, here, built, AllCallsBefore(h, st, g, n - 1), AllCallsBefore(h, st, g, n),
              PlumbingBefore(h, st, g, n - 1), PlumbingBefore(h, st, g, n), op);
    }
  }

  /** Plumbing that was not denied is fed when both worlds answer alike; booting always is. */
  lemma PlumbingFed(h: Host, h': Host, st: State, g: Guest, k: nat, built: MockIndex)
    requires Fresh(st) && !st.mode.Replay? && Plumbs(OpAt(h, st, g, k))
    requires var op := OpAt(h, st, g, k); !IsDenied(h, Go(h, st, g, k).st, op.name, op.payload)
    ensures var op, ran, j := OpAt(h, st, g, k), |Go(h, st, g, k).st.ran|, PlumbingBefore(h, st, g, k);
            FedAt(h, h', st, g, k, built) <==>
              || op.name == "kernel.boot" || !Known(op.name)
              || h'.answer(j, op.name, op.payload).result == h.answer(ran, op.name, op.payload).result
  {
    hide Go, CallAdmitted, NeverMockable, Known, ReplayCall, WriteRefusal, BeginSpan, EndSpan, FinishCell;
    var op, here := OpAt(h, st, g, k), Go(h, st, g, k).st;
    RunsAreKeyed(h, st, g, k);
    PlumbingIsPlain(op.name);
    PlumbingCall(h, here, op.name, op.payload);
    assert Call(h, here, op.name, op.payload) == CallAdmitted(h, here, op.name, op.payload, Classify(h, op.name,
        op.payload));
  }

  // --- the trace as the index ---

  /** The mock run's world has the trace stored under that id. */
  ghost predicate Loaded(h: Host, run: string, log: seq<Trace.Record>) {
    ValidRunId(run) && run != h.runId && h.runs(run) == Ok(log)
  }

  /** The index of a run's id alone. */
  function TraceIndex(log: seq<Trace.Record>, run: string): MockIndex {
    MockIndex(FoldRun(map[], log, run).queues, [], [], Fail, 0, 0, [])
  }

  lemma LoadedBuilds(h: Host, run: string, log: seq<Trace.Record>, soFar: seq<Trace.Record>)
    requires Loaded(h, run, log)
    ensures BuildMock(h, Str(run), soFar) == Ok(TraceIndex(log, run)) && PlainIndex(TraceIndex(log, run))
  {
    hide Build, FoldRun;
    RunIdBuilds(run, Runs(h.runId, soFar, h.runs), log);
    FoldedIsPlain(log, run);
  }

  /** The recorded outcomes of one call, in order. */
  function Answers(log: seq<Trace.Record>, run: string, name: string, key: Key): seq<Slot> {
    if log == [] then []
    else
      var r := log[|log| - 1];
      Answers(log[..|log| - 1], run, name, key) +
      if r.Effect? && r.name == name && r.key == key then [From(run, r.output, r.error, None)] else []
  }

  lemma {:induction false} AnswersConcat(a: seq<Trace.Record>, b: seq<Trace.Record>, run: string, name: string,
                                         key: Key)
    ensures Answers(a + b, run, name, key) == Answers(a, run, name, key) + Answers(b, run, name, key)
  {
    if b == [] {
      assert a + b == a;
    } else {
      var ab := a + b;
      assert ab[..|ab| - 1] == a + b[..|b| - 1];
      AnswersConcat(a, b[..|b| - 1], run, name, key);
    }
  }

  ghost predicate NoSpanCalled(log: seq<Trace.Record>, name: string) {
    forall i | 0 <= i < |log| && log[i].SpanBegin? :: log[i].name != name
  }

  /** For a name no span carries, the index queues exactly the recorded outcomes, in order. */
  lemma {:induction false} FoldQueuesAnswers(log: seq<Trace.Record>, run: string, name: string, key: Key)
    requires NoSpanCalled(log, name)
    ensures Queue(TraceIndex(log, run), name, Exact(key)) == Answers(log, run, name, key)
    ensures forall id | id in FoldRun(map[], log, run).begun :: FoldRun(map[], log, run).begun[id].0 != name
  {
    if log != [] {
      var most := log[..|log| - 1];
      FoldQueuesAnswers(most, run, name, key);
      assert log[|log| - 1].SpanBegin? ==> log[|log| - 1].name != name;
    }
  }

  // --- a recording that feeds ---

  /** Not the plumbing no mock serves; not a blob read, whose record keeps no bytes; and not
      the host's own refresh. */
  predicate Answerable(name: string) { !NeverMockable(name) && name != "blob.read" && name != "oauth.refresh" }

  /** Plumbing, or a call the trace can answer; a span named like no effect that is asked for. */
  predicate Feedable(h: Host, st: State, op: Op, asked: string -> bool) {
    && (op.Do? && !NeverMockable(op.name) ==> asked(op.name) && Answerable(op.name))
    && (op.Begin? ==> !asked(op.name))
    && MockFree(op) && NoFanOut(h, st, op)
  }

  ghost predicate FeedableRun(h: Host, st: State, g: Guest, n: nat, asked: string -> bool) {
    forall k: nat | k < n :: Feedable(h, Go(h, st, g, k).st, OpAt(h, st, g, k), asked)
  }

  /** The recording's side of a call. */
  lemma CallPair(h: Host, rec: State, name: string, given: Json) returns (p: RecordPair)
    requires rec.mode.Record? && rec.spanMocks == [] && rec.hosted == 0 && Materialises(h, name, given)
    requires NoFanOut(h, rec, Do(name, given))
    ensures var payload := Payload(h, name, given);
            var (end, reply) := Call(h, rec, name, given);
            && RecordedAs(h, rec, name, payload, p, end, reply) && Step(h, rec, Do(name, given)).0 == end
  {
    hide CallAdmitted, RecordedAs, WriteRefusal, ConsultMock, NoItemRecords, RefreshMocked;
    BatchIsItsOwn();
    var payload := Payload(h, name, given);
    if IsDenied(h, rec, name, payload) {
      p := RecordDenied(h, rec, name, payload, Denial(CapOf(h, name, payload), name), Unmocked);
    } else {
      PlainlyServable(h, rec, name, payload);
      p := RecordAdmitted(h, rec, name, payload);
    }
  }

  lemma PlainlyServable(h: Host, st: State, name: string, payload: Json)
    requires st.mode.Record? && st.spanMocks == []
    requires name == "batch" ==> IsDenied(h, st, "batch", payload) || NoItemRecords(h, payload)
    ensures Servable(h, st, name, payload)
  {
    hide NoItemRecords;
    NeverConsults(st, name, Key(name, payload));
    var a := h.answer(|st.ran|, name, payload);
    if a.refresh.Some? { NeverConsults(st, "oauth.refresh", Key("oauth.refresh", RefreshPayload(a.refresh.value))); }
  }

  lemma NeverConsults(st: State, name: string, key: Key)
    requires st.mode.Record? && st.spanMocks == []
    ensures ConsultMock(st, name, key) == (st, Plain)
  {
  }

  lemma AnswersOne(r: Trace.Record, run: string, name: string, key: Key)
    ensures Answers([r], run, name, key) ==
            if r.Effect? && r.name == name && r.key == key then [From(run, r.output, r.error, None)] else []
  {
    assert [r][..0] == [];
  }

  /** The pair takes one answer off the feed, and only from the queue of its own call. */
  lemma PairAnswers(p: RecordPair, run: string, name: string, key: Key, name': string, key': Key)
    requires p.own.Effect? && p.own.name == name && p.own.key == key && name' != "oauth.refresh"
    requires p.pre.Some? ==> p.pre.value.Effect? && p.pre.value.name == "oauth.refresh"
    ensures Answers((if p.pre.Some? then [p.pre.value] else []) + [p.own], run, name', key') ==
            if (name', key') == (name, key) then [From(run, p.own.output, p.own.error, None)] else []
  {
    var pre := if p.pre.Some? then [p.pre.value] else [];
    AnswersConcat(pre, [p.own], run, name', key');
    AnswersOne(p.own, run, name', key');
    if p.pre.Some? { AnswersOne(p.pre.value, run, name', key'); }
  }

  /** No span of the trace carries the name of an effect that is asked for. */
  lemma StepNamesSpans(h: Host, st: State, op: Op, name: string)
    requires !st.mode.Replay? && NoSpanCalled(st.log, name) && (op.Begin? ==> op.name != name)
    ensures NoSpanCalled(Step(h, st, op).0.log, name)
  {
    hide Call, BeginSpan, EndSpan, CloseAll;
    var st' := Step(h, st, op).0;
    match op
    case Begin(name', kind, input) => BeginNames(h, st, name', kind, input);
    case End(ok, output, error) => EndNames(h, st, ok, output, error, name);
    case Do(name', payload) =>
      CallAddsEffects(h, st, name', payload);
      var news := st'.log[|st.log|..];
      assert st'.log == st.log + news;
    case CellDone(cell, ok, error, interrupted) => CloseAllNames(h, st, cell, name);
  }

  lemma BeginNames(h: Host, st: State, name: string, kind: Option<string>, input: Json)
    requires !st.mode.Replay?
    ensures var log := BeginSpan(h, st, name, kind, input).0.log;
            log == st.log || (|log| == |st.log| + 1 && log == st.log + [log[|st.log|]] && log[|st.log|].SpanBegin?
                && log[|st.log|].name == name)
  {
    hide ServeSpan, Consulted, SlotFor;
    if MockSpecOf(input).None? {
      hide BeginSpan;
      FacadeBeginIs(h, st, name, kind, input);
    } else if BuildMock(h, MockSpecOf(input).value, st.log).Ok? {
      hide BeginSpan;
      SpecBeginIs(h, st, name, kind, input, BuildMock(h, MockSpecOf(input).value, st.log).value);
    }
  }

  lemma EndNames(h: Host, st: State, ok: bool, output: Json, error: Json, name: string)
    requires !st.mode.Replay? && NoSpanCalled(st.log, name)
    ensures var st' := EndSpan(h, st, ok, output, error).0;
            NoSpanCalled(st'.log, name) && st'.mode == st.mode && (st.stack != [] ==> |st'.stack| == |st.stack| - 1)
  {
    hide EndMeta, CloseSpan;
    if st.stack != [] {
      hide EndSpan;
      EndIs(h, st, ok, output, error);
    }
  }

  lemma {:induction false} CloseAllNames(h: Host, st: State, cell: string, name: string)
    requires !st.mode.Replay? && NoSpanCalled(st.log, name)
    ensures NoSpanCalled(CloseAll(h, st, cell).0.log, name)
    decreases |st.stack|
  {
    if st.stack != [] {
      hide EndSpan;
      EndNames(h, st, false, Null, UnclosedSpan(cell), name);
      CloseAllNames(h, EndSpan(h, st, false, Null, UnclosedSpan(cell)).0, cell, name);
    }
  }

  lemma {:induction false} RunNamesSpans(h: Host, st: State, g: Guest, n: nat, asked: string -> bool, name: string)
    requires Fresh(st) && !st.mode.Replay? && FeedableRun(h, st, g, n, asked) && asked(name)
    ensures NoSpanCalled(Go(h, st, g, n).st.log, name) && !Go(h, st, g, n).st.mode.Replay?
  {
    hide Step, NoFanOut, Answerable;
    if n > 0 {
      RunNamesSpans(h, st, g, n - 1, asked, name);
      var before := Go(h, st, g, n - 1).st;
      assert Feedable(h, before, OpAt(h, st, g, n - 1), asked);
      StepNamesSpans(h, before, OpAt(h, st, g, n - 1), name);
      StepGrows(h, before, OpAt(h, st, g, n - 1));
    }
  }

  // --- as many answers as calls ---

  lemma OneMore(log: seq<Trace.Record>, r: Trace.Record, run: string, key: Key)
    ensures Answers(log + [r], run, key.name, key) == Answers(log, run, key.name, key) +
            if r.Effect? && r.name == key.name && r.key == key then [From(run, r.output, r.error, None)] else []
  {
    AnswersConcat(log, [r], run, key.name, key);
    AnswersOne(r, run, key.name, key);
  }

  lemma EndAddsNone(h: Host, st: State, ok: bool, output: Json, error: Json, run: string, key: Key)
    requires !st.mode.Replay?
    ensures var st' := EndSpan(h, st, ok, output, error).0;
            && Answers(st'.log, run, key.name, key) == Answers(st.log, run, key.name, key) && st'.mode == st.mode
            && (st.stack != [] ==> |st'.stack| == |st.stack| - 1)
  {
    hide EndMeta, Answers, CloseSpan;
    if st.stack != [] {
      hide EndSpan;
      EndIs(h, st, ok, output, error);
      OneMore(st.log, EndOf(h, st, st.stack[|st.stack| - 1], ok, output, error), run, key);
    }
  }

  lemma {:induction false} CloseAllAddsNone(h: Host, st: State, cell: string, run: string, key: Key)
    requires !st.mode.Replay?
    ensures Answers(CloseAll(h, st, cell).0.log, run, key.name, key) == Answers(st.log, run, key.name, key)
    decreases |st.stack|
  {
    hide Answers;
    if st.stack != [] {
      hide EndSpan;
      EndAddsNone(h, st, false, Null, UnclosedSpan(cell), run, key);
      CloseAllAddsNone(h, EndSpan(h, st, false, Null, UnclosedSpan(cell)).0, cell, run, key);
    }
  }

  lemma NoCallAddsNone(h: Host, st: State, op: Op, run: string, key: Key)
    requires !st.mode.Replay? && !op.Do?
    ensures Answers(Step(h, st, op).0.log, run, key.name, key) == Answers(st.log, run, key.name, key)
  {
    hide Call, BeginSpan, EndSpan, CloseAll, Answers;
    match op
    case Begin(name, kind, input) =>
      BeginNames(h, st, name, kind, input);
      var log := Step(h, st, op).0.log;
      if |log| > |st.log| { OneMore(st.log, log[|st.log|], run, key); }
    case End(ok, output, error) => EndAddsNone(h, st, ok, output, error, run, key);
    case CellDone(cell, ok, error, interrupted) =>
      CloseAllAddsNone(h, st, cell, run, key);
      CloseAllGrows(h, st, cell);
      OneMore(CloseAll(h, st, cell).0.log, Cell(cell, ok, error, interrupted), run, key);
  }

  /** A recorded call adds one answer under its own name and input, its reply, and none
      under another's but the host's. */
  lemma CallAddsOne(h: Host, st: State, op: Op, run: string, key: Key)
    requires st.mode.Record? && st.spanMocks == [] && st.hosted == 0 && op.Do? && NoFanOut(h, st, op)
             && key.name != "oauth.refresh"
    ensures var before, after := Answers(st.log, run, key.name, key), Answers(Step(h, st, op).0.log, run, key.name,
            key);
            && (!Calls(h, op, key) ==> after == before)
            && (Calls(h, op, key) ==>
                  && |after| == |before| + 1 && before <= after
                  && (key.name != "blob.read" ==> Step(h, st, op).1 == ReplyOf(Recorded(after[|before|].rec))))
  {
    hide CallAdmitted, WriteRefusal, NoFanOut, Answers, Besides, Classify, ReplayCall;
    if Materialises(h, op.name, op.payload) {
      var payload := Payload(h, op.name, op.payload);
      var p := CallPair(h, st, op.name, op.payload);
      var (end, reply) := Call(h, st, op.name, op.payload);
      BesidesKeepsLog(st, Classify(h, op.name, payload), p, end);
      var news := (if p.pre.Some? then [p.pre.value] else []) + [p.own];
      assert end.log == st.log + news;
      AnswersConcat(st.log, news, run, key.name, key);
      PairAnswers(p, run, op.name, Key(op.name, payload), key.name, key);
    }
  }

  /** So far the trace has as many answers for a key as the guest has made calls of it. */
  lemma {:induction false} CallsAreAnswers(h: Host, st: State, g: Guest, n: nat, k: nat, asked: string -> bool,
                                           run: string, key: Key)
    requires Fresh(st) && st.mode.Record? && k <= n && FeedableRun(h, st, g, n, asked) && key.name != "oauth.refresh"
    ensures |Answers(Go(h, st, g, k).st.log, run, key.name, key)| == CallsBefore(h, st, g, k, key)
    decreases k
  {
    hide Step, NoFanOut, MockFree, Answerable, Answers, Bare, Calls;
    if k == 0 {
      NoAnswersYet(run, key);
    } else {
      CallsAreAnswers(h, st, g, n, k - 1, asked, run, key);
      var here, op := Go(h, st, g, k - 1).st, OpAt(h, st, g, k - 1);
      assert Feedable(h, here, op, asked);
      BareAt(h, st, g, n, k - 1, asked);
      if op.Do? {
        CallAddsOne(h, here, op, run, key);
      } else {
        NoCallAddsNone(h, here, op, run, key);
        assert !Calls(h, op, key) by { OnlyCallsCall(h, op, key); }
      }
    }
  }

  lemma NoAnswersYet(run: string, key: Key)
    ensures Answers([], run, key.name, key) == []
  {
  }

  lemma OnlyCallsCall(h: Host, op: Op, key: Key)
    requires !op.Do?
    ensures !Calls(h, op, key)
  {
  }

  lemma BareAt(h: Host, st: State, g: Guest, n: nat, k: nat, asked: string -> bool)
    requires Fresh(st) && st.mode.Record? && k <= n && FeedableRun(h, st, g, n, asked)
    ensures var here := Go(h, st, g, k).st; here.mode.Record? && here.spanMocks == [] && here.hosted == 0
  {
    hide Go, Step, NoFanOut, Answerable, Track;
    forall j: nat | j < k ensures MockFree(OpAt(h, st, g, j)) { assert Feedable(h, Go(h, st, g, j).st, OpAt(h, st, g,
        j), asked); }
    RunStaysBare(h, st, g, k, []);
  }

  /** A mockable call of such a run is fed: its answer is next in its queue. */
  lemma FeedableIsFed(h: Host, h': Host, rec: State, g: Guest, n: nat, k: nat, run: string, asked: string -> bool,
                      log: seq<Trace.Record>)
    requires log == Go(h, rec, g, n).st.log && k < n && Fresh(rec) && rec.mode.Record?
    requires FeedableRun(h, rec, g, n, asked) && !Plumbs(OpAt(h, rec, g, k))
    ensures FedAt(h, h', rec, g, k, TraceIndex(log, run))
  {
    hide Go, Step, NoFanOut, MockFree, Answers, TraceIndex, NoSpanCalled, CallsBefore, PlumbingBefore, PlumbingReply,
         NeverMockable;
    var here, op := Go(h, rec, g, k).st, OpAt(h, rec, g, k);
    assert Feedable(h, here, op, asked);
    if op.Do? && Materialises(h, op.name, op.payload) {
      var payload := Payload(h, op.name, op.payload);
      var key := Key(op.name, payload);
      BareAt(h, rec, g, n, k, asked);
      CallsAreAnswers(h, rec, g, n, k, asked, run, key);
      CallAddsOne(h, here, op, run, key);
      RunNamesSpans(h, rec, g, n, asked, op.name);
      FoldQueuesAnswers(log, run, op.name, key);
      GoGrows(h, rec, g, k + 1, n);
      StepIs(h, rec, g, k);
      AnswersGrow(Go(h, rec, g, k + 1).st.log, log, run, key);
    }
  }

  lemma StepIs(h: Host, st: State, g: Guest, k: nat)
    ensures Go(h, st, g, k + 1).st == Step(h, Go(h, st, g, k).st, OpAt(h, st, g, k)).0
  {
    hide Step;
  }

  lemma AnswersGrow(a: seq<Trace.Record>, b: seq<Trace.Record>, run: string, key: Key)
    requires a <= b
    ensures Answers(a, run, key.name, key) <= Answers(b, run, key.name, key)
  {
    hide Answers;
    assert b == a + b[|a|..];
    AnswersConcat(a, b[|a|..], run, key.name, key);
  }

  /** A trace feeds a mock run: the same guest, run again in a world that has the trace
      stored, and answers plumbing as it was answered, gets the recorded reply to every
      operation -- recorded errors and denials included -- but for what spans counted and how
      long they took, and nothing but plumbing runs live.  It holds for guests whose other
      calls the index can answer, that name no span like such an effect, open no mocked span
      and do not fan out. */
  lemma TraceFeedsMockRun(h: Host, h': Host, rec: State, rep: State, g: Guest, n: nat, run: string,
                          asked: string -> bool,
                          log: seq<Trace.Record>)
    requires log == Go(h, rec, g, n).st.log && Loaded(h', run, log) && rec.mode.Record?
    requires Fresh(rec) && Fresh(rep) && rep.mode.Mock? && rep.grants.None?
    requires BuildMock(h', Str(run), []).Ok? && rep.mockIndex == Some(BuildMock(h', Str(run), []).value)
    requires h'.materialize == h.materialize && BlindToCounts(g) && FeedableRun(h, rec, g, n, asked)
    requires forall k: nat | k < n && Plumbs(OpAt(h, rec, g, k)) :: FedAt(h, h', rec, g, k, TraceIndex(log, run))
    ensures var a, b := Go(h, rec, g, n), Go(h', rep, g, n);
            DimAll(b.replies) == DimAll(a.replies) && OnlyPlumbing(b.st.ran)
  {
    hide Go, FedAt, BuildMock, TraceIndex, DimAll, BlindToCounts, OnlyPlumbing, Plumbs, NoFanOut, Answerable,
         PlainIndex;
    var built := TraceIndex(log, run);
    LoadedBuilds(h', run, log, []);
    forall k: nat | k < n ensures MockFree(OpAt(h, rec, g, k)) && FedAt(h, h', rec, g, k, built) {
      assert Feedable(h, Go(h, rec, g, k).st, OpAt(h, rec, g, k), asked);
      if !Plumbs(OpAt(h, rec, g, k)) { FeedableIsFed(h, h', rec, g, n, k, run, asked, log); }
    }
    FedUpTo(h, h', rec, rep, g, n, n, built);
    FeedRunsPlumbing(Go(h, rec, g, n).st, Go(h', rep, g, n).st, built, AllCallsBefore(h, rec, g, n), PlumbingBefore(h,
        rec, g, n));
  }

  lemma FeedRunsPlumbing(rec: State, rep: State, built: MockIndex, asked: Key -> nat, plumbed: nat)
    requires InFeed(rec, rep, built, asked, plumbed)
    ensures OnlyPlumbing(rep.ran)
  {
  }

  /** A blob read is left out of that: its record keeps the length alone, so that is all a
      mock run gets. */
  lemma RecordedReadLosesBytes(bytes: Json, data: Json, h: Host, st: State, cls: Class)
    ensures var output := Obj([Field("bytes", bytes), Field("data", data)]);
            var recorded := WriteLive(h, st, "blob.read", Null, cls, false, Ok(output)).log[|st.log|];
            && Get(output, "data") == Some(data)
            && recorded.Effect? && recorded.output == Obj([Field("bytes", bytes)])
                && Get(recorded.output, "data") == None
  {
    assert |"bytes"| != |"data"|;
    var output := Obj([Field("bytes", bytes), Field("data", data)]);
    assert output.fields[1..] == [Field("data", data)];
    assert Lookup([Field("data", data)], "data") == Some(data);
    assert Lookup(output.fields, "data") == Lookup(output.fields[1..], "data");
    assert Get(output, "bytes") == Some(bytes) && Get(output, "data") == Some(data);
    assert RecordedOutput("blob.read", output) == Obj([Field("bytes", bytes)]);
    assert Lookup([Field("bytes", bytes)], "data") == Lookup([], "data");
  }
}
