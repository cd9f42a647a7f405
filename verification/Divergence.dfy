/** The strict cursor seen alone: what it serves, what it refuses, and what stands in its
    way for good. */
module Divergence {
  import opened Options
  import opened Json
  import opened Trace
  import opened Pipeline
  import opened FanOut

  /** The record a replayed effect is matched against: hosted records ahead of it
      that are not it are skipped. */
  function HeadFor(c: Cursor, name: string, key: Key): Cursor
    decreases |c.log| - c.pos
  {
    if c.HostedMismatch(name, key) then HeadFor(c.Advance(), name, key) else c
  }

  lemma {:induction false} DrainReachesHead(h: Host, st: State, name: string, key: Key)
    ensures var st' := Drain(h, st, name, key);
            && st'.cursor == HeadFor(st.cursor, name, key) && st'.cursor.log == st.cursor.log
            && st'.ran == st.ran && st'.mode == st.mode && st'.hosted == st.hosted && st'.grants == st.grants
    decreases |st.cursor.log| - st.cursor.pos
  {
    if st.cursor.HostedMismatch(name, key) {
      var r := st.cursor.log[st.cursor.pos];
      DrainReachesHead(h, WriteThrough(st, r.name, r.input, r.key, Classify(h, r.name, r.input)), name, key);
    }
  }

  /** The trace does not have the next checkpoint this operation needs. */
  predicate Unmet(h: Host, st: State, op: Op) {
    match op
    case Begin(name, _, input) => !st.cursor.AtBegin(name, Key(name, input))
    case End(ok, _, _) => st.stack != [] && !st.cursor.AtEnd(st.stack[|st.stack| - 1].name, ok)
    case Do(name, given) =>
      && Materialises(h, name, given)
      && var payload := Payload(h, name, given);
         && !IsDenied(h, st, name, payload)
         && !HeadFor(st.cursor, name, Key(name, payload)).AtEffect(name, Key(name, payload))
    case CellDone(cell, ok, _, _) =>
      if st.stack != [] then !st.cursor.AtEnd(st.stack[|st.stack| - 1].name, false)
      else !st.cursor.AtCell(cell, ok)
  }

  /** An operation the trace has no checkpoint for is refused, and runs nothing. */
  lemma UnmetDiverges(h: Host, st: State, op: Op)
    requires st.mode.Replay? && Unmet(h, st, op)
    ensures Step(h, st, op).1 == Failed(DIVERGENCE)
    ensures Step(h, st, op).0.ran == st.ran
  {
    match op
    case Do(name, given) =>
      hide CallAdmitted, Drain, HeadFor;
      DrainReachesHead(h, st, name, Key(name, Payload(h, name, given)));
    case CellDone(cell, ok, _, _) =>
      if st.stack != [] {
        assert EndSpan(h, st, false, Null, UnclosedSpan(cell)).1 == Failed(DIVERGENCE);
      }
    case _ =>
  }

  /** And only then: an effect that is met, and not denied, is served the record it met,
      which is the next one but for host-emitted records written through. */
  lemma MetIsServed(h: Host, st: State, name: string, payload: Json)
    requires st.mode.Replay? && name != "blob.put" && !IsDenied(h, st, name, payload)
             && !Unmet(h, st, Do(name, payload))
    ensures var c := HeadFor(st.cursor, name, Key(name, payload));
            var (st', reply) := Step(h, st, Do(name, payload));
            && c.AtEffect(name, Key(name, payload)) && st'.cursor == c.Advance()
            && (c.log[c.pos].error.Some? ==> reply == Failed(c.log[c.pos].error.value))
            && (c.log[c.pos].error.None? && name != "blob.read" ==> reply == Value(c.log[c.pos].output))
            && (c.log[c.pos].error.None? && name == "blob.read" ==> reply == ReplyOf(h.blobRead(payload)))
            && (name != "blob.read" ==> st'.ran == st.ran)
  {
    hide CallAdmitted, BeginSpan, EndSpan, FinishCell, Drain, HeadFor;
    DrainReachesHead(h, st, name, Key(name, payload));
  }

  // --- what a replay writes ---

  /** A record again in the trace of a replay: marked as mocked, under the span now open,
      its class read off the host's tables. */
  ghost predicate WrittenThrough(w: Trace.Record, r: Trace.Record, cell: Option<string>, span: Option<nat>) {
    r.Effect? && w.Effect? && w == r.(cell := cell, span := span, emeta := r.emeta.(mocked := true, cls := w.emeta.cls))
  }

  ghost predicate AllThrough(news: seq<Trace.Record>, c: Cursor, cell: Option<string>, span: Option<nat>) {
    c.pos + |news| <= |c.log| && forall k | 0 <= k < |news| :: WrittenThrough(news[k], c.log[c.pos + k], cell, span)
  }

  lemma OneThrough(st: State, name: string, input: Json, key: Key, cls: Class) returns (w: Trace.Record)
    requires st.cursor.AtRecord() && st.cursor.log[st.cursor.pos].Effect?
    ensures var st' := WriteThrough(st, name, input, key, cls);
            && st'.log == st.log + [w] && st'.cursor == st.cursor.Advance() && st'.cell == st.cell
            && st'.mode == st.mode
            && TopId(st') == TopId(st)
    ensures var r := st.cursor.log[st.cursor.pos];
            r.name == name && r.input == input && r.key == key ==> WrittenThrough(w, r, st.cell, TopId(st))
  {
    w := WriteThrough(st, name, input, key, cls).log[|st.log|];
  }

  lemma {:induction false} DrainedThrough(h: Host, st: State, name: string, key: Key) returns (news: seq<Trace.Record>)
    ensures var st' := Drain(h, st, name, key);
            && st'.log == st.log + news && st'.cursor == HeadFor(st.cursor, name, key) && st'.cell == st.cell
            && TopId(st') == TopId(st) && |news| == st'.cursor.pos - st.cursor.pos
            && (news == [] || AllThrough(news, st.cursor, st.cell, TopId(st)))
    decreases |st.cursor.log| - st.cursor.pos
  {
    hide WriteThrough, TopId, WrittenThrough;
    if st.cursor.HostedMismatch(name, key) {
      var r := st.cursor.log[st.cursor.pos];
      var cls := Classify(h, r.name, r.input);
      var w := OneThrough(st, r.name, r.input, r.key, cls);
      var rest := DrainedThrough(h, WriteThrough(st, r.name, r.input, r.key, cls), name, key);
      news := [w] + rest;
      assert st.log + news == (st.log + [w]) + rest;
      forall k | 0 <= k < |news| ensures WrittenThrough(news[k], st.cursor.log[st.cursor.pos + k], st.cell, TopId(st)) {
        if k > 0 { assert news[k] == rest[k - 1]; }
      }
    } else {
      news := [];
      assert st.log + [] == st.log;
    }
  }

  /** A replayed call writes what it is served: the host-emitted records ahead of its own, in
      their order, and its own, as they stand in the trace it replays. */
  lemma ServedIsWritten(h: Host, st: State, name: string, payload: Json) returns (news: seq<Trace.Record>)
    requires st.mode.Replay? && name != "blob.put" && !IsDenied(h, st, name, payload)
             && !Unmet(h, st, Do(name, payload))
    requires var c := HeadFor(st.cursor, name, Key(name, payload));
             c.AtRecord() && c.log == st.cursor.log && c.log[c.pos].input == payload
    ensures var c := HeadFor(st.cursor, name, Key(name, payload));
            var st' := Step(h, st, Do(name, payload)).0;
            && st'.log == st.log + news && |news| == c.pos + 1 - st.cursor.pos
            && AllThrough(news, st.cursor, st.cell, TopId(st))
  {
    hide CallAdmitted, BeginSpan, EndSpan, FinishCell, Drain, HeadFor, WriteThrough, TopId, WrittenThrough;
    var key := Key(name, payload);
    var ahead := DrainedThrough(h, st, name, key);
    DrainReachesHead(h, st, name, key);
    var at := Drain(h, st, name, key);
    var w := OneThrough(at, name, payload, key, Classify(h, name, payload));
    news := ahead + [w];
    assert st.log + news == (st.log + ahead) + [w];
  }

  // --- a batch whose items stand before it ---

  lemma {:induction false} HeadStopsInside(c: Cursor, inner: seq<Trace.Record>, payload: Json)
    requires inner != [] && AllInner(inner, Size(payload)) && EndsPlain(inner)
    requires c.pos + |inner| <= |c.log| && forall i :: 0 <= i < |inner| ==> c.log[c.pos + i] == inner[i]
    ensures !HeadFor(c, "batch", Key("batch", payload)).AtEffect("batch", Key("batch", payload))
    decreases |inner|
  {
    assert c.log[c.pos] == inner[0] && Inner(inner[0], Size(payload));
    if c.HostedMismatch("batch", Key("batch", payload)) {
      assert |inner| > 1;
      forall i | 0 <= i < |inner[1..]| ensures c.log[c.Advance().pos + i] == inner[1..][i] {
        assert c.log[c.pos + (i + 1)] == inner[i + 1];
      }
      HeadStopsInside(c.Advance(), inner[1..], payload);
    }
  }

  // --- a record that grants bar ---

  /** Record j is a guest's effect that the grants deny, and has not been passed. */
  ghost predicate Barred(h: Host, st: State, j: nat) {
    && st.mode.Replay? && st.hosted == 0 && st.grants.Some?
    && st.cursor.pos <= j < |st.cursor.log|
    && var r := st.cursor.log[j];
       && r.Effect? && !r.emeta.hosted && r.key == Key(r.name, r.input)
       && !st.grants.value.Allowed(CapOf(h, r.name, r.input))
  }

  lemma {:induction false} HeadStopsAt(c: Cursor, name: string, key: Key, j: nat)
    requires c.pos <= j < |c.log| && c.log[j].Effect? && !c.log[j].emeta.hosted
    ensures HeadFor(c, name, key).pos <= j
    decreases j - c.pos
  {
    if c.HostedMismatch(name, key) { HeadStopsAt(c.Advance(), name, key, j); }
  }

  /** All that Barred reads but the cursor. */
  predicate SameGate(a: State, b: State) {
    b.mode == a.mode && b.hosted == a.hosted && b.grants == a.grants
  }

  lemma CursorKeepsBarred(h: Host, st: State, st': State, j: nat)
    requires Barred(h, st, j) && SameGate(st, st')
    requires st'.cursor == st.cursor || (st'.cursor == st.cursor.Advance() && st.cursor.pos != j)
    ensures Barred(h, st', j)
  {
    hide CapOf;
  }

  lemma CloseKeepsGate(h: Host, st: State, top: Frame, ok: bool, output: Json, error: Json)
    ensures var st' := CloseSpan(h, st, top, ok, output, error).0;
            SameGate(st, st') && st'.cursor == st.cursor && |st'.stack| == |st.stack|
  {
    hide EndMeta;
  }

  lemma EndKeepsBarred(h: Host, st: State, ok: bool, output: Json, error: Json, j: nat)
    requires Barred(h, st, j)
    ensures Barred(h, EndSpan(h, st, ok, output, error).0, j)
    ensures st.stack != [] ==> |EndSpan(h, st, ok, output, error).0.stack| == |st.stack| - 1
  {
    hide CloseSpan, CapOf;
    if st.stack != [] {
      var top := st.stack[|st.stack| - 1];
      var st1 := st.(stack := st.stack[..|st.stack| - 1]);
      var st2 := st1.(cursor := st.cursor.Advance());
      CloseKeepsGate(h, st2, top, ok, output, error);
      CursorKeepsBarred(h, st, EndSpan(h, st, ok, output, error).0, j);
    }
  }

  lemma {:induction false} CloseAllKeepsBarred(h: Host, st: State, cell: string, j: nat)
    requires Barred(h, st, j)
    ensures Barred(h, CloseAll(h, st, cell).0, j)
    decreases |st.stack|
  {
    hide EndSpan, Barred;
    if st.stack != [] {
      EndKeepsBarred(h, st, false, Null, UnclosedSpan(cell), j);
      var (st1, r) := EndSpan(h, st, false, Null, UnclosedSpan(cell));
      if !r.Failed? { CloseAllKeepsBarred(h, st1, cell, j); }
    }
  }

  lemma BeginKeepsBarred(h: Host, st: State, name: string, kind: Option<string>, input: Json, j: nat)
    requires Barred(h, st, j)
    ensures Barred(h, BeginSpan(h, st, name, kind, input).0, j)
  {
    hide ServeSpan;
    ServeSpanKeepsRest(st.(spanN := st.spanN + 1, cursor := st.cursor.Advance()), name, Key(name, input));
  }

  lemma ServeSpanKeepsRest(st: State, name: string, key: Key)
    ensures var st1 := ServeSpan(st, name, key).0; st1 == st.(spanMocks := st1.spanMocks)
  {
  }

  lemma ReplayKeepsGate(h: Host, st: State, name: string, payload: Json)
    ensures var st' := ReplayCall(h, st, name, payload).0;
            var c := HeadFor(st.cursor, name, Key(name, payload));
            && SameGate(st, st')
            && st'.cursor == if c.AtEffect(name, Key(name, payload)) then c.Advance() else c
  {
    hide Drain, HeadFor, Bump;
    DrainReachesHead(h, st, name, Key(name, payload));
    var st1 := Drain(h, st, name, Key(name, payload));
    BumpKeepsDepth(st1.(cursor := st1.cursor.Advance()), Classify(h, name, payload));
  }

  lemma CallKeepsBarred(h: Host, st: State, name: string, given: Json, j: nat)
    requires Barred(h, st, j)
    ensures Barred(h, Call(h, st, name, given).0, j)
  {
    hide CallAdmitted, ReplayCall, HeadFor, WriteRefusal, CapOf;
    if Materialises(h, name, given) {
      var payload := Payload(h, name, given);
      if IsDenied(h, st, name, payload) {
        RefusalKeepsGate(st, name, payload, Classify(h, name, payload), Denial(CapOf(h, name, payload), name));
        CursorKeepsBarred(h, st, Call(h, st, name, given).0, j);
      } else {
        ReplayKeepsGate(h, st, name, payload);
        HeadStopsAt(st.cursor, name, Key(name, payload), j);
        HeadKeepsLog(st.cursor, name, Key(name, payload));
        ServedElsewhere(h, st, ReplayCall(h, st, name, payload).0, name, payload, j);
      }
    }
  }

  lemma RefusalKeepsGate(st: State, name: string, payload: Json, cls: Class, f: Failure)
    ensures var st' := WriteRefusal(st, name, payload, cls, f, Unmocked); SameGate(st, st') && st'.cursor == st.cursor
  {
  }

  lemma {:induction false} HeadKeepsLog(c: Cursor, name: string, key: Key)
    ensures HeadFor(c, name, key).log == c.log
    decreases |c.log| - c.pos
  {
    if c.HostedMismatch(name, key) { HeadKeepsLog(c.Advance(), name, key); }
  }

  lemma ServedElsewhere(h: Host, st: State, st': State, name: string, payload: Json, j: nat)
    requires Barred(h, st, j) && SameGate(st, st') && !IsDenied(h, st, name, payload)
    requires var c := HeadFor(st.cursor, name, Key(name, payload));
             && c.pos <= j && c.log == st.cursor.log
             && st'.cursor == if c.AtEffect(name, Key(name, payload)) then c.Advance() else c
    ensures Barred(h, st', j)
  {
    hide CapOf, HeadFor;
  }

  /** Nothing a guest does gets the cursor past it: the one call that would be served it
      is denied. */
  lemma StepKeepsBarred(h: Host, st: State, op: Op, j: nat)
    requires Barred(h, st, j)
    ensures Barred(h, Step(h, st, op).0, j)
  {
    hide Call, BeginSpan, EndSpan, CloseAll;
    match op
    case Begin(name, kind, input) => BeginKeepsBarred(h, st, name, kind, input, j);
    case End(ok, output, error) => EndKeepsBarred(h, st, ok, output, error, j);
    case Do(name, given) => CallKeepsBarred(h, st, name, given, j);
    case CellDone(cell, ok, error, interrupted) => CloseAllKeepsBarred(h, st, cell, j);
  }
}
