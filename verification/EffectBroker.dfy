/** The broker object: the pipeline performed in place, field by field.  Each
    method leaves exactly the state the pipeline function names. */
module EffectBroker {
  import opened Options
  import opened Json
  import opened Trace
  import opened Mocks
  import opened MockSpecs
  import opened Caps
  import opened Pipeline

  /** What every call keeps, however it ends: the hosted depth, the grants and the span
      counter; the trace and the list of executions only grow. */
  predicate Extends(a: State, b: State) {
    b.hosted == a.hosted && b.grants == a.grants && b.spanN == a.spanN && a.log <= b.log && a.ran <= b.ran
  }

  class Broker {
    const host: Host
    var mode: Mode
    var currentCell: Option<string>
    var cursor: Cursor
    var mockIndex: Option<MockIndex>
    var spanMocks: seq<MockIndex>
    var grants: Option<GrantSet>
    var mutations: nat
    var hosted: int
    var spanStack: seq<Frame>
    var spanN: nat
    var records: seq<Trace.Record>
    /** what the outside world has executed for this broker */
    var ran: seq<Execution>

    function View(): State
      reads this
    {
      State(mode, currentCell, cursor, mockIndex, spanMocks, grants, mutations, hosted,
            spanStack, spanN, records, ran)
    }

    /** The record-mode permissive broker. */
    constructor (host: Host)
      ensures this.host == host && Fresh(View()) && mode == Mode.Record && grants == None
    {
      this.host := host;
      mode, currentCell, cursor := Mode.Record, None, Cursor([], 0);
      mockIndex, spanMocks, grants := None, [], None;
      mutations, hosted, spanStack, spanN := 0, 0, [], 0;
      records, ran := [], [];
    }

    method BumpMocked(cls: Class, mocked: bool)
      modifies this
      ensures View() == Bump(old(View()), cls, mocked)
    {
      if cls.Mutate? {
        mutations := mutations + 1;
      }
      var t := One(cls, mocked);
      var i := 0;
      while i < |spanStack|
        invariant 0 <= i <= |spanStack| == |old(spanStack)|
        invariant forall k :: 0 <= k < i ==> spanStack[k] == old(spanStack)[k].(tally := old(spanStack)[k].tally.Plus(t))
        invariant forall k :: i <= k < |spanStack| ==> spanStack[k] == old(spanStack)[k]
        invariant View() == old(View()).(mutations := old(mutations) + t.mutations, stack := spanStack)
      {
        spanStack := spanStack[i := spanStack[i].(tally := spanStack[i].tally.Plus(t))];
        i := i + 1;
      }
      assert spanStack == BumpFrames(old(spanStack), t);
    }

    method Append(r: Trace.Record)
      modifies this`records
      ensures View() == Write(old(View()), r)
    {
      records := records + [r];
    }

    /** One recorded answer at the cursor head, written through. */
    method TakeThrough(name: string, input: Json, key: Key, cls: Class) returns (rec: Trace.Record)
      requires cursor.AtRecord() && cursor.log[cursor.pos].Effect?
      modifies this
      ensures rec == old(cursor).log[old(cursor).pos]
      ensures View() == WriteThrough(old(View()), name, input, key, cls)
    {
      rec := cursor.log[cursor.pos];
      cursor := cursor.Advance();
      BumpMocked(cls, false);
      Append(Effect(name, currentCell, input, key, rec.output, rec.error, Restamp(rec.emeta, cls), TopId(View())));
    }

    method ReplayEffect(name: string, payload: Json) returns (r: Result<Json, Failure>)
      modifies this
      ensures (View(), r) == ReplayCall(host, old(View()), name, payload)
      ensures Extends(old(View()), View())
    {
      var key := Key(name, payload);
      while cursor.HostedMismatch(name, key)
        invariant Drain(host, View(), name, key) == Drain(host, old(View()), name, key)
        invariant Extends(old(View()), View())
        decreases |cursor.log| - cursor.pos
      {
        var head := cursor.log[cursor.pos];
        var _ := TakeThrough(head.name, head.input, head.key, Classify(host, head.name, head.input));
      }
      if !cursor.AtEffect(name, key) {
        return Err(DIVERGENCE);
      }
      var rec := TakeThrough(name, payload, key, Classify(host, name, payload));
      if rec.error.Some? {
        return Err(rec.error.value);
      }
      if name == "blob.read" {
        ran := ran + [Execution(name, payload, hosted > 0)];
        return host.blobRead(payload);
      }
      r := Ok(rec.output);
    }

    method AskMock(name: string, key: Key) returns (c: Consult)
      modifies this`spanMocks, this`mockIndex
      ensures (View(), c) == ConsultMock(old(View()), name, key)
      ensures |spanMocks| == |old(spanMocks)| && forall i :: 0 <= i < |spanMocks| - 1 ==> spanMocks[i] == old(spanMocks)[i]
      ensures mockIndex == old(mockIndex) || (spanMocks == [] && mode.Mock?)
      ensures NeverMockable(name) ==> c == Plain && spanMocks == old(spanMocks) && mockIndex == old(mockIndex)
    {
      c := Plain;
      var active := ActiveMock(View());
      if !NeverMockable(name) && active.Some? {
        var d := Decide(active.value, name, Facades(spanStack));
        var idx := Counted(active.value, d);
        if d.IsMockable() {
          var (idx', slot) := Take(idx, name, key);
          idx := idx';
          c := match slot case Some(s) => Serve(s) case None => Miss(active.value.unmatched);
        }
        if |spanMocks| > 0 {
          spanMocks := spanMocks[|spanMocks| - 1 := idx];
        } else {
          mockIndex := Some(idx);
        }
      }
    }

    method Refuse(name: string, payload: Json, cls: Class, f: Failure, mark: MockMark)
      modifies this
      ensures View() == WriteRefusal(old(View()), name, payload, cls, f, mark)
    {
      BumpMocked(cls, false);
      Append(Effect(name, currentCell, payload, Key(name, payload), Null, Some(f),
                    EffectMeta(None, false, cls, false, None, mark), TopId(View())));
    }

    /** The one pipeline for every effect call. */
    method CallEffect(name: string, given: Json) returns (r: Result<Json, Failure>)
      modifies this
      ensures (View(), r) == Call(host, old(View()), name, given)
      ensures Extends(old(View()), View())
      decreases Rank(name, given), 3
    {
      var payload := given;
      if name == "blob.put" {
        var m := host.materialize(given);
        if m.Err? {
          return Err(m.error);
        }
        payload := m.value;
      }
      var cls, cap := Classify(host, name, payload), CapOf(host, name, payload);
      if grants.Some? {
        if hosted == 0 && !grants.value.Allowed(cap) {
          var f := Denial(cap, name);
          Refuse(name, payload, cls, f, Unmocked);
          return Err(f);
        }
      }
      if mode.Replay? {
        r := ReplayEffect(name, payload);
        return;
      }
      r := AdmittedEffect(name, payload, cls);
    }

    method AdmittedEffect(name: string, payload: Json, cls: Class) returns (r: Result<Json, Failure>)
      modifies this
      ensures (View(), r) == CallAdmitted(host, old(View()), name, payload, cls)
      ensures Extends(old(View()), View())
      decreases Rank(name, payload), 2
    {
      hide ConsultMock, CallLive;
      var c := AskMock(name, Key(name, payload));
      match c
      case Serve(slot) =>
        BumpMocked(cls, true);
        Append(Effect(name, currentCell, payload, Key(name, payload), slot.rec.output, slot.rec.error,
                      EffectMeta(None, true, cls, false, None, ServedFrom(slot.provenance)), TopId(View())));
        r := Recorded(slot.rec);
      case Miss(Fail) =>
        Refuse(name, payload, cls, NoMock(name), Unmatched);
        r := Err(NoMock(name));
      case _ =>
        r := LiveEffect(name, payload, cls, c.Miss?);
    }

    method LiveEffect(name: string, payload: Json, cls: Class, unmatched: bool) returns (r: Result<Json, Failure>)
      modifies this
      ensures (View(), r) == CallLive(host, old(View()), name, payload, cls, unmatched)
      ensures Extends(old(View()), View())
      decreases Rank(name, payload), 1
    {
      BumpMocked(cls, false);
      r := ExecuteEffect(name, payload);
      var meta := LiveMeta(host, View(), payload, cls, unmatched);
      match r
      case Ok(output) =>
        Append(Effect(name, currentCell, payload, Key(name, payload), RecordedOutput(name, output), None, meta,
            TopId(View())));
      case Err(e) =>
        Append(Effect(name, currentCell, payload, Key(name, payload), Null, Some(e), meta, TopId(View())));
    }

    method ExecuteEffect(name: string, payload: Json) returns (r: Result<Json, Failure>)
      modifies this
      ensures (View(), r) == Execute(host, old(View()), name, payload)
      ensures Extends(old(View()), View()) && |old(ran)| < |ran|
      ensures ran[|old(ran)|] == Execution(name, payload, old(hosted) > 0)
      decreases Rank(name, payload), 0
    {
      hide Batch, CallHosted, Known;
      var answer := host.answer(|ran|, name, payload);
      ran := ran + [Execution(name, payload, hosted > 0)];
      if IsHttp(name) {
        r := answer.result;
        if answer.refresh.Some? {
          var refreshed := EmitHosted(answer.refresh.value);
          if refreshed.Err? {
            r := refreshed;
          }
        }
      } else if name == "batch" {
        r := SysBatch(payload);
      } else if name == "oauth.refresh" && hosted == 0 {
        r := Err(Failure("host_only", "oauth.refresh is host-emitted at credential injection"));
      } else if name == "blob.read" {
        r := host.blobRead(payload);
      } else if name == "blob.put" {
        r := Ok(match Get(payload, "ref") case Some(v) => v case None => Null);
      } else if name == "kernel.boot" {
        r := Ok(payload);
      } else if Known(name) {
        r := answer.result;
      } else {
        r := Err(Failure(UNKNOWN, "no such effect: " + name));
      }
    }

    method EmitHosted(provider: string) returns (r: Result<Json, Failure>)
      modifies this
      ensures (View(), r) == CallHosted(host, old(View()), provider)
      ensures hosted == old(hosted) && Extends(old(View()), View())
      decreases 0, 4
    {
      hide Call;
      assert "oauth.refresh"[0] != "http."[0];
      hosted := hosted + 1;
      r := CallEffect("oauth.refresh", Obj([Field("provider", Str(provider))]));
      hosted := hosted - 1;
    }

    /** A batch is refused whole when its name is no effect; item failures stay per slot. */
    method SysBatch(payload: Json) returns (r: Result<Json, Failure>)
      modifies this
      ensures (View(), r) == Batch(host, old(View()), payload)
      ensures Extends(old(View()), View())
      decreases 1 + Size(payload), 5
    {
      var name, items := GetStr(payload, "name"), GetArr(payload, "payloads");
      if items == [] {
        return Ok(Results([]));
      }
      var first := CallEffect(name, items[0]);
      if first.Err? && first.error.kind == UNKNOWN {
        return Err(Failure(UNKNOWN, "batch fans out host effects only: " + first.error.message));
      }
      var results := [SlotOf(first)];
      var i := 1;
      ghost var start := View();
      assert items[1..][0..] == items[1..];
      while i < |items|
        invariant 1 <= i <= |items| && Extends(old(View()), View())
        invariant var (end, slots) := BatchItems(host, start, name, items[1..]);
                  var (end', slots') := BatchItems(host, View(), name, items[i..]);
                  end == end' && [SlotOf(first)] + slots == results + slots'
      {
        ghost var here := View();
        SizeOfItem(items, i);
        var slot := CallEffect(name, items[i]);
        ghost var rest := BatchItems(host, View(), name, items[i + 1..]).1;
        assert items[i..][0] == items[i] && items[i..][1..] == items[i + 1..];
        assert BatchItems(host, here, name, items[i..]).1 == [SlotOf(slot)] + rest;
        assert results + ([SlotOf(slot)] + rest) == (results + [SlotOf(slot)]) + rest;
        results := results + [SlotOf(slot)];
        i := i + 1;
      }
      assert items[i..] == [];
      assert results + [] == results;
      r := Ok(Results(results));
    }

    method TrySpanBegin(name: string, kind: Option<string>, input: Json) returns (r: Reply)
      modifies this
      ensures (View(), r) == BeginSpan(host, old(View()), name, kind, input)
    {
      hide OpenSpan;
      spanN := spanN + 1;
      if mode.Replay? {
        if !cursor.AtBegin(name, Key(name, input)) {
          return Failed(DIVERGENCE);
        }
        cursor := cursor.Advance();
      }
      r := TryOpen(name, kind, input);
    }

    /** Install the span's own mock, or see whether a mock serves it whole; then open it. */
    method TryOpen(name: string, kind: Option<string>, input: Json) returns (r: Reply)
      modifies this
      ensures (View(), r) == OpenSpan(host, old(View()), name, kind, input)
    {
      hide PushSpan, ServeSpan;
      var spec := MockSpecOf(input);
      if spec.Some? {
        var built := BuildIndex(spec.value, Runs(host.runId, records, host.runs));
        if built.Err? {
          return Failed(Failure("mock_spec", built.error));
        }
        spanMocks := spanMocks + [built.value];
        Push(name, kind, input, true, None);
        r := Began(spanN, None);
      } else {
        var slot := TakeSpanMock(name, Key(name, input));
        Push(name, kind, input, false, slot);
        r := Began(spanN, match slot case Some(s) => Some(ServedOutcome(s.rec)) case None => None);
      }
    }

    method TakeSpanMock(name: string, key: Key) returns (slot: Option<Slot>)
      modifies this`spanMocks
      ensures (View(), slot) == ServeSpan(old(View()), name, key)
    {
      slot := None;
      if !NeverSubstituted(name) && |spanMocks| > 0 {
        var idx := spanMocks[|spanMocks| - 1];
        var d := Decide(idx, name, Facades(spanStack));
        idx := Counted(idx, d);
        if d.IsMockable() {
          var (idx', taken) := Take(idx, name, key);
          idx, slot := idx', taken;
        }
        spanMocks := spanMocks[|spanMocks| - 1 := idx];
      }
    }

    method Push(name: string, kind: Option<string>, input: Json, ownsMock: bool, slot: Option<Slot>)
      modifies this`records, this`spanStack
      ensures View() == PushSpan(old(View()), name, kind, input, ownsMock, slot)
    {
      Append(SpanBegin(spanN, name, currentCell, input, Key(name, input), TopId(View())));
      var served := match slot case Some(s) => Some((ServedOutcome(s.rec), s.provenance)) case None => None;
      spanStack := spanStack + [Frame(spanN, name, kind, ZERO, ownsMock, served)];
    }

    method TrySpanEnd(ok: bool, output: Json, error: Json) returns (r: Reply)
      modifies this
      ensures (View(), r) == EndSpan(host, old(View()), ok, output, error)
    {
      hide CloseSpan;
      if spanStack == [] {
        return Failed(Failure("no_open_span", "span.end without span.begin"));
      }
      var top := spanStack[|spanStack| - 1];
      spanStack := spanStack[..|spanStack| - 1];
      if mode.Replay? {
        if !cursor.AtEnd(top.name, ok) {
          return Failed(DIVERGENCE);
        }
        cursor := cursor.Advance();
      }
      r := TryClose(top, ok, output, error);
    }

    method TryClose(top: Frame, ok: bool, output: Json, error: Json) returns (r: Reply)
      modifies this
      ensures (View(), r) == CloseSpan(host, old(View()), top, ok, output, error)
    {
      hide EndMeta;
      var meta := EndMeta(host, View(), top);
      if top.ownsMock && |spanMocks| > 0 {
        spanMocks := spanMocks[..|spanMocks| - 1];
      }
      if top.served.Some? {
        BumpMocked(Read, true);
      }
      Append(SpanEnd(top.id, top.name, currentCell, ok, output, error, meta));
      r := Ended(meta);
    }

    method TryCellDone(cell: string, ok: bool, error: Json, interrupted: bool) returns (r: Reply)
      modifies this
      ensures (View(), r) == FinishCell(host, old(View()), cell, ok, error, interrupted)
    {
      while spanStack != []
        invariant CloseAll(host, View(), cell) == CloseAll(host, old(View()), cell)
        invariant mode == old(mode)
        decreases |spanStack|
      {
        ghost var before := View();
        var closed := TrySpanEnd(false, Null, UnclosedSpan(cell));
        if closed.Failed? {
          assert CloseAll(host, before, cell) == (View(), Some(closed.failure));
          return closed;
        }
        assert CloseAll(host, before, cell) == CloseAll(host, View(), cell);
      }
      assert CloseAll(host, View(), cell) == (View(), None);
      if mode.Replay? {
        if !cursor.AtCell(cell, ok) {
          return Failed(DIVERGENCE);
        }
        cursor := cursor.Advance();
      }
      Append(Cell(cell, ok, error, interrupted));
      r := CellClosed;
    }
  }
}
