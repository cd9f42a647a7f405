/** The run's append-only effect log, the strict replay cursor over it, and the
    counts a reader can take from it. */
module Trace {
  import opened Options
  import opened Json

  /** The hash of an effect name and its canonical input (taken as injective). */
  datatype Key = Key(name: string, input: Json)

  datatype Class = Read | Mutate

  datatype Failure = Failure(kind: string, message: string)

  /** How an effect record came about when a mock index was consulted. */
  datatype MockMark = Unmocked | ServedFrom(provenance: Json) | Unmatched

  datatype EffectMeta = EffectMeta(
    durMs: Option<nat>, mocked: bool, cls: Class, hosted: bool,
    credential: Option<string>, mock: MockMark)

  datatype FilterHits = FilterHits(only: Option<nat>, except: Option<nat>, unserved: seq<nat>)

  datatype SpanMeta = SpanMeta(
    durMs: nat, effects: nat, mutations: nat, mocked: nat,
    mockFilter: Option<FilterHits>, servedFrom: Option<Json>, kind: Option<string>)

  /** One record; span ids `s1`, `s2`, ... are their numbers.  The run header
      that precedes the log is not part of it. */
  datatype Record =
    | Effect(name: string, cell: Option<string>, input: Json, key: Key,
             output: Json, error: Option<Failure>, emeta: EffectMeta, span: Option<nat>)
    | SpanBegin(id: nat, name: string, cell: Option<string>, input: Json, key: Key,
                parent: Option<nat>)
    | SpanEnd(id: nat, name: string, cell: Option<string>, ok: bool,
              output: Json, serror: Json, smeta: SpanMeta)
    | Cell(cellId: string, ok: bool, cerror: Json, interrupted: bool)

  // --- the strict cursor ---

  datatype Cursor = Cursor(log: seq<Record>, pos: nat)
  {
    predicate AtRecord() { pos < |log| }

    /** The head is a host-emitted record other than the one asked for. */
    predicate HostedMismatch(name: string, key: Key) {
      && AtRecord() && log[pos].Effect? && log[pos].emeta.hosted
      && !(log[pos].name == name && log[pos].key == key)
    }

    predicate AtEffect(name: string, key: Key) {
      AtRecord() && log[pos].Effect? && log[pos].name == name && log[pos].key == key
    }

    predicate AtBegin(name: string, key: Key) {
      AtRecord() && log[pos].SpanBegin? && log[pos].name == name && log[pos].key == key
    }

    predicate AtEnd(name: string, ok: bool) {
      AtRecord() && log[pos].SpanEnd? && log[pos].name == name && log[pos].ok == ok
    }

    predicate AtCell(cell: string, ok: bool) {
      AtRecord() && log[pos].Cell? && log[pos].cellId == cell && log[pos].ok == ok
    }

    function Advance(): Cursor { this.(pos := pos + 1) }

    predicate Exhausted() { pos >= |log| }
  }

  // --- what a reader can count ---

  /** Effects, mutations and mock-served entries. */
  datatype Tally = Tally(effects: nat, mutations: nat, mocked: nat)
  {
    function Plus(other: Tally): Tally {
      Tally(effects + other.effects, mutations + other.mutations, mocked + other.mocked)
    }
  }

  const ZERO := Tally(0, 0, 0)

  /** What one record adds to every span open around it: an effect record is one
      effect, and a span served whole from a mock is one served effect. */
  function Weight(r: Record): Tally {
    if r.Effect? then
      Tally(1, if r.emeta.cls.Mutate? then 1 else 0, if r.emeta.mocked then 1 else 0)
    else if r.SpanEnd? && r.smeta.servedFrom.Some? then Tally(1, 0, 1)
    else ZERO
  }

  function Count(log: seq<Record>): Tally {
    if log == [] then ZERO else Count(log[..|log| - 1]).Plus(Weight(log[|log| - 1]))
  }

  lemma CountOn(log: seq<Record>, r: Record)
    ensures Count(log + [r]) == Count(log).Plus(Weight(r))
  {
    assert (log + [r])[..|log|] == log;
  }

  lemma CountNone()
    ensures Count([]) == ZERO
  {
  }

  lemma {:induction false} CountConcat(a: seq<Record>, b: seq<Record>)
    ensures Count(a + b) == Count(a).Plus(Count(b))
  {
    hide Count, Weight;
    if b == [] {
      assert a + b == a;
      CountNone();
    } else {
      var most, r := b[..|b| - 1], b[|b| - 1];
      CountConcat(a, most);
      assert b == most + [r] && a + b == (a + most) + [r];
      CountOn(a + most, r);
      CountOn(most, r);
    }
  }

  // --- what is counted ---

  datatype Tallied = Effects | Mutations | MockAnswers

  /** Effects, and spans served whole; the effects that mutate; the entries a mock answered. */
  predicate Is(r: Record, what: Tallied) {
    match what
    case Effects => r.Effect? || (r.SpanEnd? && r.smeta.servedFrom.Some?)
    case Mutations => r.Effect? && r.emeta.cls == Mutate
    case MockAnswers => (r.Effect? && r.emeta.mocked) || (r.SpanEnd? && r.smeta.servedFrom.Some?)
  }

  function Where(log: seq<Record>, what: Tallied): set<nat> { set i: nat | i < |log| && Is(log[i], what) }

  lemma WhereOn(log: seq<Record>, r: Record, what: Tallied)
    ensures |Where(log + [r], what)| == |Where(log, what)| + if Is(r, what) then 1 else 0
  {
    hide Is;
    var all, before, after := log + [r], Where(log, what), Where(log + [r], what);
    assert all[|log|] == r && |log| !in before;
    forall i: nat | i < |log| ensures all[i] == log[i] {}
    if Is(r, what) {
      assert after == before + {|log|};
    } else {
      assert after == before;
    }
  }

  lemma Weighs(r: Record)
    ensures Weight(r) ==
            Tally(if Is(r, Effects) then 1 else 0, if Is(r, Mutations) then 1 else 0,
                  if Is(r, MockAnswers) then 1 else 0)
  {
  }

  ghost predicate CountsIts(log: seq<Record>) {
    Count(log) == Tally(|Where(log, Effects)|, |Where(log, Mutations)|, |Where(log, MockAnswers)|)
  }

  lemma CountsNothing()
    ensures CountsIts([])
  {
  }

  lemma CountsOneMore(log: seq<Record>, r: Record)
    requires CountsIts(log)
    ensures CountsIts(log + [r])
  {
    hide Where, Weight, Is, Count;
    CountOn(log, r);
    Weighs(r);
    WhereOn(log, r, Effects);
    WhereOn(log, r, Mutations);
    WhereOn(log, r, MockAnswers);
  }

  lemma {:induction false} EachCounts(log: seq<Record>)
    ensures CountsIts(log)
  {
    hide CountsIts;
    if log == [] {
      CountsNothing();
    } else {
      EachCounts(log[..|log| - 1]);
      CountsOneMore(log[..|log| - 1], log[|log| - 1]);
      assert log[..|log| - 1] + [log[|log| - 1]] == log;
    }
  }

  /** A count is of records. */
  lemma CountsRecords(log: seq<Record>)
    ensures Count(log) == Tally(|Where(log, Effects)|, |Where(log, Mutations)|, |Where(log, MockAnswers)|)
  {
    EachCounts(log);
  }
}
