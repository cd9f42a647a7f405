/** Whose mock index is consulted: over whole runs, the innermost owning span's, with
    the policy it was given. */
module MockScopes {
  import opened Options
  import opened Json
  import opened Trace
  import opened Mocks
  import opened Pipeline
  import opened Stretch
  import opened Accounting
  import opened Brackets
  import opened Nesting

  /** Wherever both have an index, its policy is the same. */
  predicate PoliciesKept(a: seq<MockIndex>, b: seq<MockIndex>) {
    forall k :: 0 <= k < |a| && k < |b| ==> SamePolicy(a[k], b[k])
  }

  lemma {:induction false} CloseAllPops(h: Host, st: State, cell: string)
    requires !st.mode.Replay?
    ensures CloseAll(h, st, cell).0.spanMocks <= st.spanMocks
    decreases |st.stack|
  {
    if st.stack != [] {
      hide EndMeta;
      CloseAllPops(h, EndSpan(h, st, false, Null, UnclosedSpan(cell)).0, cell);
    }
  }

  /** A step consults, pushes or pops the innermost index only. */
  lemma StepKeepsPolicies(h: Host, st: State, op: Op)
    requires !st.mode.Replay?
    ensures PoliciesKept(st.spanMocks, Step(h, st, op).0.spanMocks)
    ensures op.Do? ==> OnlyLastUsed(st.spanMocks, Step(h, st, op).0.spanMocks)
    ensures Step(h, st, op).0.mode == st.mode
  {
    hide Call, EndMeta, ServeSpan, CloseAll;
    match op
    case Begin(name, kind, input) =>
      ServeSpanKeeps(st.(spanN := st.spanN + 1), name, Key(name, input));
    case End(ok, output, error) =>
    case Do(name, payload) => CallIsStretch(h, st, name, payload);
    case CellDone(cell, ok, error, interrupted) =>
      CloseAllPops(h, st, cell);
      CloseAllKeepsMode(h, st, cell);
  }

  // --- the frames of one step ---

  /** Every frame was there before, in its place, or was begun just now. */
  ghost predicate FramesStay(st: State, st': State) {
    && st.spanN <= st'.spanN
    && forall i | 0 <= i < |st'.stack| ::
         || (i < |st.stack| && st'.stack[i] == st.stack[i].(tally := st'.stack[i].tally))
         || (i == |st.stack| && st'.stack[i].id == st.spanN + 1)
  }

  lemma StepKeepsFrames(h: Host, st: State, op: Op)
    requires Coherent(st) && !st.mode.Replay?
    ensures FramesStay(st, Step(h, st, op).0)
  {
    hide Call, BeginSpan, EndMeta, CloseAll, Coherent;
    match op
    case Begin(name, kind, input) => BeginPushes(h, st, name, kind, input);
    case End(ok, output, error) =>
    case Do(name, payload) => CallAddsEffects(h, st, name, payload);
    case CellDone(cell, ok, error, interrupted) =>
      StepKeepsCoherent(h, st, op);
      CloseAllKeepsCount(h, st, cell);
  }

  lemma {:induction false} CloseAllKeepsCount(h: Host, st: State, cell: string)
    ensures CloseAll(h, st, cell).0.spanN == st.spanN
    decreases |st.stack|
  {
    hide EndMeta;
    if st.stack != [] && !EndSpan(h, st, false, Null, UnclosedSpan(cell)).1.Failed? {
      CloseAllKeepsCount(h, EndSpan(h, st, false, Null, UnclosedSpan(cell)).0, cell);
    }
  }

  lemma {:induction false} OwnedInPrefix(stack: seq<Frame>, i: nat)
    requires i < |stack| && stack[i].ownsMock
    ensures OwnedMocks(stack[..i]) < OwnedMocks(stack)
  {
    var most := stack[..|stack| - 1];
    if i < |most| {
      OwnedInPrefix(most, i);
      assert most[..i] == stack[..i];
    }
  }

  // --- the index of a span ---

  /** Frame `at` is the span `id`, and the index at its depth in the mock stack -- the
      owners below it -- has the policy of `idx`. */
  ghost predicate Stands(st: State, at: nat, id: nat, idx: MockIndex) {
    && at < |st.stack| && st.stack[at].id == id && st.stack[at].ownsMock
    && var k := OwnedMocks(st.stack[..at]);
       k < |st.spanMocks| && SamePolicy(idx, st.spanMocks[k])
  }

  /** No owner above. */
  predicate InnermostOwner(stack: seq<Frame>, at: nat) {
    at < |stack| && stack[at].ownsMock && forall j | at < j < |stack| :: !stack[j].ownsMock
  }

  lemma {:induction false} OwnersBelowInnermost(stack: seq<Frame>, at: nat)
    requires InnermostOwner(stack, at)
    ensures OwnedMocks(stack) == OwnedMocks(stack[..at]) + 1
  {
    var most := stack[..|stack| - 1];
    if at < |most| {
      OwnersBelowInnermost(most, at);
      assert most[..at] == stack[..at];
    } else {
      assert most == stack[..at];
    }
  }

  lemma InstalledStands(h: Host, st: State, op: Op, idx: MockIndex)
    requires Coherent(st) && !st.mode.Replay?
    requires op.Begin? && MockSpecOf(op.input).Some? && BuildMock(h, MockSpecOf(op.input).value, st.log) == Ok(idx)
    ensures Stands(Step(h, st, op).0, |st.stack|, st.spanN + 1, idx) && Step(h, st, op).0.spanN == st.spanN + 1
  {
    hide Agrees, BuildMock;
    var st' := Step(h, st, op).0;
    assert st'.stack[..|st.stack|] == st.stack;
  }

  lemma StepKeepsStanding(h: Host, st: State, op: Op, at: nat, id: nat, idx: MockIndex)
    requires Coherent(st) && !st.mode.Replay? && id <= st.spanN
    requires forall i | 0 <= i < |st.stack| && st.stack[i].id == id :: i == at && Stands(st, at, id, idx)
    ensures var st' := Step(h, st, op).0;
            forall i | 0 <= i < |st'.stack| && st'.stack[i].id == id :: i == at && Stands(st', at, id, idx)
  {
    hide Step, Coherent;
    var st' := Step(h, st, op).0;
    StepKeepsFrames(h, st, op);
    StepKeepsCoherent(h, st, op);
    StepKeepsPolicies(h, st, op);
    forall i | 0 <= i < |st'.stack| && st'.stack[i].id == id ensures i == at && Stands(st', at, id, idx) {
      assert st.stack[i].id == id;
      assert SameShape(st.stack[..at], st'.stack[..at]);
      OwnedDependOnShape(st.stack[..at], st'.stack[..at]);
      OwnedInPrefix(st'.stack, at);
      assert |st'.spanMocks| == OwnedMocks(st'.stack) by { MocksCounted(st'); }
    }
  }

  lemma MocksCounted(st: State)
    requires Coherent(st)
    ensures |st.spanMocks| == OwnedMocks(st.stack)
  {
  }

  lemma {:induction false} StandsAllAlong(h: Host, st: State, ops: seq<Op>, n: nat, m: nat, idx: MockIndex)
    requires Fresh(st) && !st.mode.Replay? && n < m <= |ops| && ops[n].Begin?
    requires var before := StepAll(h, st, ops[..n]);
             MockSpecOf(ops[n].input).Some? && BuildMock(h, MockSpecOf(ops[n].input).value, before.log) == Ok(idx)
    ensures var before, here := StepAll(h, st, ops[..n]), StepAll(h, st, ops[..m]);
            && Coherent(here) && !here.mode.Replay? && before.spanN + 1 <= here.spanN
            && forall i | 0 <= i < |here.stack| && here.stack[i].id == before.spanN + 1 ::
                 i == |before.stack| && Stands(here, i, before.spanN + 1, idx)
    decreases m
  {
    hide Step, Coherent, Stands, BuildMock;
    var before, last := StepAll(h, st, ops[..n]), StepAll(h, st, ops[..m - 1]);
    assert ops[..m][..m - 1] == ops[..m - 1];
    RunsAreCoherent(h, st, ops[..m - 1]);
    RunsAreCoherent(h, st, ops[..m]);
    if m == n + 1 {
      InstalledStands(h, before, ops[n], idx);
      NewestAlone(h, before, ops[n], idx);
    } else {
      StandsAllAlong(h, st, ops, n, m - 1, idx);
      StepKeepsFrames(h, last, ops[m - 1]);
      StepKeepsStanding(h, last, ops[m - 1], |before.stack|, before.spanN + 1, idx);
    }
  }

  /** Ids on the stack are not above the counter. */
  lemma NewestAlone(h: Host, st: State, op: Op, idx: MockIndex)
    requires Coherent(st) && !st.mode.Replay? && Stands(Step(h, st, op).0, |st.stack|, st.spanN + 1, idx)
    ensures var st' := Step(h, st, op).0;
            forall i | 0 <= i < |st'.stack| && st'.stack[i].id == st.spanN + 1 :: i == |st.stack|
  {
    hide Step;
    StepKeepsFrames(h, st, op);
    OpenIdsBounded(st.log);
  }

  /** Whose index is consulted.  If operation n of a run begins a span whose spec builds
      `idx`, then as long as that span's frame is on the stack, the index at its place --
      as many owners are below it -- carries the policy of `idx`, whatever runs inside;
      and while no owner is above it, that is the index every call consults. */
  lemma IndexOfTheInnermostOwner(h: Host, st: State, ops: seq<Op>, n: nat, m: nat, i: nat, idx: MockIndex)
    requires Fresh(st) && !st.mode.Replay? && n < m <= |ops| && ops[n].Begin?
    requires var before := StepAll(h, st, ops[..n]);
             MockSpecOf(ops[n].input).Some? && BuildMock(h, MockSpecOf(ops[n].input).value, before.log) == Ok(idx)
    requires var here := StepAll(h, st, ops[..m]);
             i < |here.stack| && here.stack[i].id == StepAll(h, st, ops[..n]).spanN + 1
    ensures var here := StepAll(h, st, ops[..m]);
            var k := OwnedMocks(here.stack[..i]);
            && here.stack[i].ownsMock && k < |here.spanMocks| && SamePolicy(idx, here.spanMocks[k])
            && (InnermostOwner(here.stack, i) ==> ActiveMock(here) == Some(here.spanMocks[k]))
  {
    hide StepAll, BuildMock;
    var here := StepAll(h, st, ops[..m]);
    StandsAllAlong(h, st, ops, n, m, idx);
    if InnermostOwner(here.stack, i) { OwnersBelowInnermost(here.stack, i); }
  }

  /** ... and with no owner open, none but the run's own is. */
  lemma NoOwnerNoIndex(h: Host, st: State, ops: seq<Op>, end: State)
    requires Fresh(st) && !st.mode.Replay? && end == StepAll(h, st, ops)
    requires forall i | 0 <= i < |end.stack| :: !end.stack[i].ownsMock
    ensures ActiveMock(end) == if end.mode.Mock? then end.mockIndex else None
  {
    hide StepAll;
    RunsAreCoherent(h, st, ops);
    NoOwners(end.stack);
  }

  lemma {:induction false} NoOwners(stack: seq<Frame>)
    requires forall i | 0 <= i < |stack| :: !stack[i].ownsMock
    ensures OwnedMocks(stack) == 0
  {
    if stack != [] { NoOwners(stack[..|stack| - 1]); }
  }
}
