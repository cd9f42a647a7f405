/** What a replay's mock bookkeeping will be, worked out from the recording alone.  A
    replay rebuilds every span-scoped index and lets facades consult it, but no effect
    does; so it counts less than the recording did wherever an effect was answered from
    a mock or met a filter.  And it rebuilds from what is stored by then: a spec that
    names the recorded run gets the whole of it, not the part there was. */
module Shadows {
  import opened Options
  import opened Json
  import opened Trace
  import opened Mocks
  import opened MockSpecs
  import opened Pipeline
  import opened Stretch
  import opened Accounting
  import opened MockScopes

  /** The replay's indices; and, span by span, whether an effect inside was answered from
      a mock or counted by the span's own filter, and whether the span's own index, if it
      has one, is the recorded one again. */
  datatype Shadow = Shadow(mocks: seq<MockIndex>, touched: seq<bool>, reloaded: seq<bool>)

  /** The call was answered from a mock: its own record, the last one, says so. */
  predicate Answered(h: Host, st: State, op: Op) {
    op.Do? &&
    var log := Step(h, st, op).0.log;
    |log| > |st.log| && log[|log| - 1].Effect? && log[|log| - 1].emeta.mocked
  }

  predicate SameFilter(a: MockIndex, b: MockIndex) { a.onlyHits == b.onlyHits && a.exceptHits == b.exceptHits }

  /** The call met a filter: `only` admitted it or `except` removed it. */
  predicate FilterHit(h: Host, st: State, op: Op) {
    op.Do? && Moved(st.spanMocks, Step(h, st, op).0.spanMocks)
  }

  predicate Moved(m: seq<MockIndex>, m': seq<MockIndex>) {
    m != [] && |m'| == |m| && !SameFilter(m[|m| - 1], m'[|m| - 1])
  }

  function Marked(stack: seq<Frame>, touched: seq<bool>, answered: bool, hit: bool): seq<bool> {
    seq(|touched|, i requires 0 <= i < |touched| => touched[i] || answered || (hit && InnermostOwner(stack, i)))
  }

  function Popped(stack: seq<Frame>, s: Shadow): Shadow
    requires stack != []
  {
    Shadow(if stack[|stack| - 1].ownsMock && |s.mocks| > 0 then s.mocks[..|s.mocks| - 1] else s.mocks,
           ButLast(s.touched), ButLast(s.reloaded))
  }

  function ButLast(flags: seq<bool>): seq<bool> {
    if flags == [] then [] else flags[..|flags| - 1]
  }

  /** The store once the run is over: it has the whole recording under the run's id. */
  function StoreWith(h: Host, log: seq<Trace.Record>): string -> Result<seq<Trace.Record>, string> {
    (run: string) => if run == h.runId then Ok(log) else h.runs(run)
  }

  /** The index of a spec in a later run, which has another id. */
  function Reload(h: Host, log: seq<Trace.Record>, spec: Json): Result<MockIndex, string> {
    Build(spec, Runs("", [], StoreWith(h, log)))
  }

  /** No spec names the empty id. */
  lemma NamesNoBlank(spec: Json)
    ensures !Names(spec, "")
  {
    assert !ValidRunId("");
    hide RecordOk, ValidRunId, Strings, Policy;
    if Parse(spec).Ok? && "" in Parse(spec).value.from { assert false; }
  }

  /** A spec builds later exactly when it builds now, with the same filters; and unless it
      names the run it is in, it gives the same index. */
  lemma ReloadsAlike(h: Host, log: seq<Trace.Record>, spec: Json, soFar: seq<Trace.Record>)
    ensures Reload(h, log, spec).Ok? == BuildMock(h, spec, soFar).Ok?
    ensures Reload(h, log, spec).Ok? ==>
      var later, now := Reload(h, log, spec).value, BuildMock(h, spec, soFar).value;
      Behind(later, now) && SameFilter(later, now)
    ensures !Names(spec, h.runId) ==> Reload(h, log, spec) == BuildMock(h, spec, soFar)
  {
    hide Build, Parse, Names;
    NamesNoBlank(spec);
    var later, now := Runs("", [], StoreWith(h, log)), Runs(h.runId, soFar, h.runs);
    BuildsWhereLoads(spec, later, now);
    if !Names(spec, h.runId) { BuildDependsOnNamedRuns(spec, later, now); }
  }

  function Asked(idx: MockIndex, d: Decision, name: string, key: Key): MockIndex {
    if d.IsMockable() then Take(Counted(idx, d), name, key).0 else Counted(idx, d)
  }

  function Consulted(m: seq<MockIndex>, stack: seq<Frame>, name: string, key: Key): seq<MockIndex> {
    if NeverSubstituted(name) || m == [] then m
    else
      var idx := m[|m| - 1];
      m[|m| - 1 := Asked(idx, Decide(idx, name, Facades(stack)), name, key)]
  }

  /** The slot a facade is served from, if any. */
  function SlotFor(m: seq<MockIndex>, stack: seq<Frame>, name: string, key: Key): Option<Slot> {
    if NeverSubstituted(name) || m == [] then None
    else
      var idx := m[|m| - 1];
      var d := Decide(idx, name, Facades(stack));
      if d.IsMockable() then Take(Counted(idx, d), name, key).1 else None
  }

  /** The shadow after one recorded operation; `log` is the whole recording. */
  function Shade(h: Host, log: seq<Trace.Record>, st: State, s: Shadow, op: Op): Shadow {
    match op
    case Begin(name, _, input) =>
      (match MockSpecOf(input)
       case Some(spec) =>
         (match (BuildMock(h, spec, st.log), Reload(h, log, spec))
          case (Ok(now), Ok(later)) => Shadow(s.mocks + [later], s.touched + [false], s.reloaded + [later == now])
          case _ => s)
       case None =>
         Shadow(Consulted(s.mocks, st.stack, name, Key(name, input)), s.touched + [false], s.reloaded + [true]))
    case End(_, _, _) => if st.stack == [] then s else Popped(st.stack, s)
    case Do(_, _) => s.(touched := Marked(st.stack, s.touched, Answered(h, st, op), FilterHit(h, st, op)))
    case CellDone(_, _, _, _) => UNSHADED
  }

  const UNSHADED := Shadow([], [], [])

  // --- recorder's and replayer's stacks ---

  /** Alike but for the mocked count, which is not larger on replay, and for where a
      served span came from. */
  predicate SameFrame(a: Frame, b: Frame) {
    && b.id == a.id && b.name == a.name && b.kind == a.kind && b.ownsMock == a.ownsMock
    && b.tally.effects == a.tally.effects && b.tally.mutations == a.tally.mutations && b.tally.mocked <= a.tally.mocked
    && (a.served.Some? <==> b.served.Some?) && (a.served.Some? ==> a.served.value.0 == b.served.value.0)
  }

  /** The index of a replay has counted no more than the recording's. */
  predicate Behind(b: MockIndex, a: MockIndex) {
    && SamePolicy(a, b) && b.onlyHits <= a.onlyHits && b.exceptHits <= a.exceptHits
    && (a.only == [] ==> b.onlyHits == a.onlyHits) && (a.except == [] ==> b.exceptHits == a.exceptHits)
  }

  function OwnIndex(stack: seq<Frame>, i: nat): nat
    requires i <= |stack|
  {
    OwnedMocks(stack[..i])
  }

  /** Frame i and the index it owns, if any, have counted the same. */
  predicate Level(a: seq<Frame>, b: seq<Frame>, m: seq<MockIndex>, mocks: seq<MockIndex>, i: nat)
    requires i < |a| == |b|
  {
    && b[i].tally.mocked == a[i].tally.mocked
    && (a[i].ownsMock ==>
          var k := OwnIndex(a, i); k < |m| && k < |mocks| && SameFilter(mocks[k], m[k]))
  }

  /** ... and an index that came back and no effect has touched is the same altogether. */
  predicate Untouched(a: seq<Frame>, m: seq<MockIndex>, mocks: seq<MockIndex>, i: nat)
    requires i < |a|
  {
    a[i].ownsMock ==> var k := OwnIndex(a, i); k < |m| && k < |mocks| && mocks[k] == m[k]
  }

  /** The replayer's stacks (b, s.mocks) against the recorder's (a, m). */
  ghost predicate Tracks(exact: bool, s: Shadow, a: seq<Frame>, b: seq<Frame>, m: seq<MockIndex>) {
    && |b| == |a| == |s.touched| == |s.reloaded| && |s.mocks| == |m| == OwnedMocks(a)
    && (forall i | 0 <= i < |a| :: SameFrame(a[i], b[i]))
    && (forall k | 0 <= k < |m| :: Behind(s.mocks[k], m[k]))
    && (forall i | 0 <= i < |a| :: s.touched[i] <==> !Level(a, b, m, s.mocks, i))
    && (forall i | 0 <= i < |a| :: !s.touched[i] && s.reloaded[i] ==> Untouched(a, m, s.mocks, i))
    && (exact ==> a == b && s.mocks == m)
  }

  lemma SameOwners(a: seq<Frame>, b: seq<Frame>)
    requires SameShape(a, b)
    ensures OwnedMocks(b) == OwnedMocks(a)
    ensures forall i | 0 <= i <= |a| :: OwnIndex(b, i) == OwnIndex(a, i)
  {
    OwnedDependOnShape(a, b);
    forall i | 0 <= i <= |a| ensures OwnIndex(b, i) == OwnIndex(a, i) {
      OwnedDependOnShape(a[..i], b[..i]);
    }
  }

  /** Both sides charge the same. */
  lemma BumpTracks(exact: bool, s: Shadow, a: seq<Frame>, b: seq<Frame>, m: seq<MockIndex>, t: Tally)
    requires Tracks(exact, s, a, b, m)
    ensures Tracks(exact, s, BumpFrames(a, t), BumpFrames(b, t), m)
  {
    hide OwnedMocks, OwnIndex;
    var a', b' := BumpFrames(a, t), BumpFrames(b, t);
    SameOwners(a, a');
    forall i | 0 <= i < |a| ensures Level(a', b', m, s.mocks, i) <==> Level(a, b, m, s.mocks, i) {}
    forall i | 0 <= i < |a| ensures Untouched(a', m, s.mocks, i) <==> Untouched(a, m, s.mocks, i) {}
  }

  /** The recorder's frames also count a mocked answer. */
  predicate MockedMore(p: seq<Frame>, e: seq<Frame>, answered: bool) {
    && |e| == |p|
    && forall i | 0 <= i < |p| ::
         e[i] == p[i].(tally := p[i].tally.(mocked := p[i].tally.mocked + if answered then 1 else 0))
  }

  /** What consults of one call do to an index. */
  predicate Grew(a: MockIndex, a': MockIndex, answered: bool) {
    && Behind(a, a') && (!answered && SameFilter(a, a') ==> a' == a)
  }

  predicate LastGrew(m: seq<MockIndex>, m': seq<MockIndex>, answered: bool) {
    && |m'| == |m| && (m != [] ==> Grew(m[|m| - 1], m'[|m| - 1], answered))
    && forall k | 0 <= k < |m| - 1 :: m'[k] == m[k]
  }

  /** Counts only rise, so they are the same at the end only if they never differed. */
  lemma FilterMoves(b: MockIndex, a: MockIndex, a': MockIndex)
    requires Behind(b, a) && (a' == a || Behind(a, a'))
    ensures Behind(b, a')
    ensures SameFilter(b, a') <==> SameFilter(b, a) && SameFilter(a, a')
  {
  }

  lemma {:induction false} InnermostBelow(stack: seq<Frame>, i: nat)
    requires i < |stack| && stack[i].ownsMock
    ensures OwnIndex(stack, i) < OwnedMocks(stack)
    ensures OwnIndex(stack, i) == OwnedMocks(stack) - 1 <==> InnermostOwner(stack, i)
  {
    OwnedInPrefix(stack, i);
    if InnermostOwner(stack, i) {
      OwnersBelowInnermost(stack, i);
    } else {
      var j :| i < j < |stack| && stack[j].ownsMock;
      OwnedInPrefix(stack, j);
      OwnedInPrefix(stack[..j], i);
      assert stack[..j][..i] == stack[..i];
    }
  }

  /** One recorded call, on top of the charge both sides share. */
  lemma CallTracks(exact: bool, s: Shadow, p: seq<Frame>, e: seq<Frame>, b: seq<Frame>,
                   m: seq<MockIndex>, m': seq<MockIndex>, answered: bool)
    requires Tracks(exact, s, p, b, m) && MockedMore(p, e, answered) && LastGrew(m, m', answered)
    requires exact ==> !answered && m' == m
    ensures Tracks(exact, s.(touched := Marked(p, s.touched, answered, Moved(m, m'))), e, b, m')
  {
    hide OwnedMocks, OwnIndex, Behind;
    var s' := s.(touched := Marked(p, s.touched, answered, Moved(m, m')));
    SameOwners(p, e);
    forall i | 0 <= i < |p|
      ensures s'.touched[i] <==> !Level(e, b, m', s.mocks, i)
      ensures !s'.touched[i] && s.reloaded[i] ==> Untouched(e, m', s.mocks, i)
    {
      assert s.touched[i] <==> !Level(p, b, m, s.mocks, i);
      assert SameFrame(p[i], b[i]);
      if p[i].ownsMock {
        InnermostBelow(p, i);
        var k := OwnIndex(p, i);
        assert Behind(s.mocks[k], m[k]);
        FilterMoves(s.mocks[k], m[k], m'[k]);
      }
    }
    forall k | 0 <= k < |m'| ensures Behind(s.mocks[k], m'[k]) {
      FilterMoves(s.mocks[k], m[k], m'[k]);
    }
    if exact { assert e == p; }
  }

  /** A span opened on both sides, each with a new index or none. */
  lemma PushTracks(exact: bool, s: Shadow, a: seq<Frame>, b: seq<Frame>, m: seq<MockIndex>, f: Frame, f': Frame,
                   own: seq<MockIndex>, own': seq<MockIndex>)
    requires Tracks(exact, s, a, b, m) && SameFrame(f, f') && f.tally == f'.tally
    requires |own'| == |own| == if f.ownsMock then 1 else 0
    requires own != [] ==> Behind(own'[0], own[0]) && SameFilter(own'[0], own[0])
    requires exact ==> f' == f && own' == own
    ensures Tracks(exact, Shadow(s.mocks + own', s.touched + [false], s.reloaded + [own' == own]), a + [f], b + [f'],
            m + own)
  {
    hide OwnedMocks, Behind, SameFilter;
    var a', b', m', mocks' := a + [f], b + [f'], m + own, s.mocks + own';
    PushedOwners(a, f);
    forall i | 0 <= i < |a| ensures Level(a', b', m', mocks', i) <==> Level(a, b, m, s.mocks, i) {}
    forall i | 0 <= i < |a| ensures Untouched(a', m', mocks', i) <==> Untouched(a, m, s.mocks, i) {}
    NewestLevel(a', b', m', mocks', |a|);
  }

  lemma PushedOwners(a: seq<Frame>, f: Frame)
    ensures OwnedMocks(a + [f]) == OwnedMocks(a) + if f.ownsMock then 1 else 0
    ensures OwnIndex(a + [f], |a|) == OwnedMocks(a)
    ensures forall i | 0 <= i < |a| ::
              OwnIndex(a + [f], i) == OwnIndex(a, i) && (a[i].ownsMock ==> OwnIndex(a, i) < OwnedMocks(a))
  {
    var a' := a + [f];
    assert a'[..|a|] == a;
    forall i | 0 <= i < |a|
      ensures OwnIndex(a', i) == OwnIndex(a, i) && (a[i].ownsMock ==> OwnIndex(a, i) < OwnedMocks(a))
    {
      assert a'[..i] == a[..i];
      if a[i].ownsMock { OwnedInPrefix(a, i); }
    }
  }

  lemma NewestLevel(a: seq<Frame>, b: seq<Frame>, m: seq<MockIndex>, mocks: seq<MockIndex>, i: nat)
    requires i < |a| == |b| && b[i].tally == a[i].tally
    requires a[i].ownsMock ==> var k := OwnIndex(a, i); k < |m| && k < |mocks| && SameFilter(mocks[k], m[k])
    ensures Level(a, b, m, mocks, i)
    ensures (a[i].ownsMock ==> mocks[OwnIndex(a, i)] == m[OwnIndex(a, i)]) ==> Untouched(a, m, mocks, i)
  {
  }

  lemma BehindItself(idx: MockIndex)
    ensures Behind(idx, idx)
  {
  }

  /** The innermost span closed on both sides, and its index with it. */
  lemma PopTracks(exact: bool, s: Shadow, a: seq<Frame>, b: seq<Frame>, m: seq<MockIndex>)
    requires Tracks(exact, s, a, b, m) && a != []
    ensures var top := a[|a| - 1];
            && (top.ownsMock ==> |m| > 0 && OwnIndex(a, |a| - 1) == |m| - 1)
            && Tracks(exact, Popped(a, s), a[..|a| - 1], b[..|b| - 1],
                      if top.ownsMock then m[..|m| - 1] else m)
  {
    hide OwnedMocks, Behind, SameFilter;
    var top := a[|a| - 1];
    var a', b', s' := a[..|a| - 1], b[..|b| - 1], Popped(a, s);
    assert a' + [top] == a;
    PushedOwners(a', top);
    var m' := if top.ownsMock then m[..|m| - 1] else m;
    forall i | 0 <= i < |a'| ensures Level(a', b', m', s'.mocks, i) <==> Level(a, b, m, s.mocks, i) {}
    forall i | 0 <= i < |a'| ensures Untouched(a', m', s'.mocks, i) <==> Untouched(a, m, s.mocks, i) {}
  }

  // --- a facade asking its index on both sides ---

  lemma SameFacades(a: seq<Frame>, b: seq<Frame>)
    requires |a| == |b| && forall i | 0 <= i < |a| :: b[i].name == a[i].name
    ensures Facades(a) == Facades(b)
  {
  }

  lemma SameDecision(a: MockIndex, b: MockIndex, name: string, facades: seq<string>)
    requires SamePolicy(a, b)
    ensures Decide(b, name, facades) == Decide(a, name, facades)
  {
  }

  lemma AskedAlike(b: MockIndex, a: MockIndex, name: string, facades: seq<string>, key: Key)
    requires Behind(b, a)
    ensures var d := Decide(a, name, facades);
            && Decide(b, name, facades) == d
            && Behind(Asked(b, d, name, key), Asked(a, d, name, key))
            && (SameFilter(Asked(b, d, name, key), Asked(a, d, name, key)) <==> SameFilter(b, a))
  {
    hide Take, Hit;
    SameDecision(a, b, name, facades);
    var d := Decide(a, name, facades);
    TakeKeepsFilter(Counted(a, d), name, key);
    TakeKeepsFilter(Counted(b, d), name, key);
  }

  lemma TakeKeepsFilter(idx: MockIndex, name: string, key: Key)
    ensures SameFilter(idx, Take(idx, name, key).0) && SamePolicy(idx, Take(idx, name, key).0)
    ensures Take(idx, name, key).1.None? ==> Take(idx, name, key).0 == idx
  {
  }

  /** What `ServeSpan` gives, and leaves of the indices. */
  lemma ServeSpanAsks(st: State, name: string, key: Key)
    ensures ServeSpan(st, name, key) ==
            (st.(spanMocks := Consulted(st.spanMocks, st.stack, name, key)), SlotFor(st.spanMocks, st.stack, name, key))
  {
    hide Take, Decide, Counted;
  }

  /** Both sides consult; whoever was level stays level. */
  lemma ConsultTracks(exact: bool, s: Shadow, a: seq<Frame>, b: seq<Frame>, m: seq<MockIndex>, name: string, key: Key)
    requires Tracks(exact, s, a, b, m)
    ensures Tracks(exact, s.(mocks := Consulted(s.mocks, a, name, key)), a, b, Consulted(m, a, name, key))
    ensures Consulted(s.mocks, b, name, key) == Consulted(s.mocks, a, name, key)
  {
    hide OwnedMocks, OwnIndex, Asked, Decide;
    SameFacades(a, b);
    if !NeverSubstituted(name) && m != [] {
      AskedAlike(s.mocks[|m| - 1], m[|m| - 1], name, Facades(a), key);
      var m', mocks' := Consulted(m, a, name, key), Consulted(s.mocks, a, name, key);
      forall i | 0 <= i < |a| ensures Level(a, b, m', mocks', i) <==> Level(a, b, m, s.mocks, i) {}
      forall i | 0 <= i < |a| && !s.touched[i] && s.reloaded[i] ensures Untouched(a, m', mocks', i) {
        assert Untouched(a, m, s.mocks, i);
      }
    }
  }

  // --- the counts an end record carries ---

  function OnlyHitsOf(f: Option<FilterHits>): Option<nat> { match f case Some(hits) => hits.only case None => None }

  function ExceptHitsOf(f: Option<FilterHits>): Option<nat> { match f case Some(hits) => hits.except case None => None }

  /** The two counts of a filter that decisions move; the inline records not served are the
      third part of a report. */
  predicate SameHits(a: Option<FilterHits>, b: Option<FilterHits>) {
    OnlyHitsOf(a) == OnlyHitsOf(b) && ExceptHitsOf(a) == ExceptHitsOf(b)
  }

  lemma HitsTellFilters(b: MockIndex, a: MockIndex)
    requires Behind(b, a)
    ensures SameHits(Hits(b), Hits(a)) <==> SameFilter(b, a)
  {
    hide Unserved;
  }

  /** Of the replies to `span.end`, the mocked answers and the filter's hits come back on
      replay exactly when no effect inside was answered from a mock or counted by the
      span's own filter; and then, if the index is the recorded one again, so does the
      whole filter report. */
  lemma CountsTellTouched(exact: bool, s: Shadow, a: seq<Frame>, b: seq<Frame>, m: seq<MockIndex>)
    requires Tracks(exact, s, a, b, m) && a != []
    ensures var top, top' := a[|a| - 1], b[|a| - 1];
            var filter, filter' := if top.ownsMock && |m| > 0 then Hits(m[|m| - 1]) else None,
                                   if top'.ownsMock && |s.mocks| > 0 then Hits(s.mocks[|m| - 1]) else None;
            && ((top'.tally.mocked == top.tally.mocked && SameHits(filter', filter)) <==> !s.touched[|a| - 1])
            && (!s.touched[|a| - 1] && s.reloaded[|a| - 1] ==> filter' == filter)
  {
    hide Hits, Behind;
    PopTracks(exact, s, a, b, m);
    var top := a[|a| - 1];
    assert s.touched[|a| - 1] <==> !Level(a, b, m, s.mocks, |a| - 1);
    if top.ownsMock {
      assert Behind(s.mocks[|m| - 1], m[|m| - 1]);
      HitsTellFilters(s.mocks[|m| - 1], m[|m| - 1]);
    }
  }
}
