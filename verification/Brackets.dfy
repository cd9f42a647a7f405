/** What a reader can tell of a trace alone: which spans are open, what each end
    record should count, and whether the records are properly bracketed. */
module Brackets {
  import opened Options
  import opened Trace

  /** All of `news` are effect records written directly in `span`. */
  predicate EffectsIn(news: seq<Trace.Record>, span: Option<nat>) {
    forall i :: 0 <= i < |news| ==> news[i].Effect? && news[i].span == span
  }

  lemma EffectsInConcat(a: seq<Trace.Record>, b: seq<Trace.Record>, span: Option<nat>)
    requires EffectsIn(a, span) && EffectsIn(b, span)
    ensures EffectsIn(a + b, span)
  {
  }

  lemma EmptyCount()
    ensures Count([]) == ZERO
  {
  }

  /** The spans open at the end of a log, innermost last. */
  function Open(log: seq<Trace.Record>): seq<(nat, string)> {
    if log == [] then []
    else
      var before, r := Open(log[..|log| - 1]), log[|log| - 1];
      if r.SpanBegin? then before + [(r.id, r.name)]
      else if r.SpanEnd? && before != [] then before[..|before| - 1]
      else before
  }

  function Innermost(open: seq<(nat, string)>): Option<nat> {
    if open == [] then None else Some(open[|open| - 1].0)
  }

  /** The largest span id a log has begun. */
  function MaxId(log: seq<Trace.Record>): nat {
    if log == [] then 0
    else
      var before, r := MaxId(log[..|log| - 1]), log[|log| - 1];
      if r.SpanBegin? && before < r.id then r.id else before
  }

  /** The weight of everything written since span `id` began. */
  function Since(log: seq<Trace.Record>, id: nat): Tally {
    if log == [] then ZERO
    else
      var last := log[|log| - 1];
      if last.SpanBegin? && last.id == id then ZERO
      else Since(log[..|log| - 1], id).Plus(Weight(last))
  }

  /** `r` may come after `before`: brackets match, ids are fresh, links name the
      innermost open span. */
  predicate Nests(before: seq<Trace.Record>, r: Trace.Record) {
    var open := Open(before);
    if r.Effect? then r.span == Innermost(open)
    else if r.SpanBegin? then r.parent == Innermost(open) && MaxId(before) < r.id
    else if r.SpanEnd? then open != [] && open[|open| - 1] == (r.id, r.name)
    else open == []
  }

  /** An end record's counters are what its reader counts. */
  predicate Counts(before: seq<Trace.Record>, r: Trace.Record) {
    r.SpanEnd? ==> Tally(r.smeta.effects, r.smeta.mutations, r.smeta.mocked) == Since(before, r.id)
  }

  predicate Nested(log: seq<Trace.Record>) {
    log == [] || (Nested(log[..|log| - 1]) && Nests(log[..|log| - 1], log[|log| - 1]))
  }

  predicate Counting(log: seq<Trace.Record>) {
    log == [] || (Counting(log[..|log| - 1]) && Counts(log[..|log| - 1], log[|log| - 1]))
  }

  predicate Sound(log: seq<Trace.Record>) { Nested(log) && Counting(log) }

  predicate Follows(before: seq<Trace.Record>, r: Trace.Record) { Nests(before, r) && Counts(before, r) }

  lemma Appended(log: seq<Trace.Record>, r: Trace.Record)
    ensures (log + [r])[..|log + [r]| - 1] == log
  {
  }

  /** One step of each reading. */
  lemma ReadOn(log: seq<Trace.Record>, r: Trace.Record)
    ensures Nested(log + [r]) <==> Nested(log) && Nests(log, r)
    ensures Counting(log + [r]) <==> Counting(log) && Counts(log, r)
    ensures Open(log + [r]) ==
            if r.SpanBegin? then Open(log) + [(r.id, r.name)]
            else if r.SpanEnd? && Open(log) != [] then Open(log)[..|Open(log)| - 1]
            else Open(log)
    ensures MaxId(log + [r]) == if r.SpanBegin? && MaxId(log) < r.id then r.id else MaxId(log)
    ensures Count(log + [r]) == Count(log).Plus(Weight(r))
  {
    Appended(log, r);
  }

  lemma {:induction false} OpenIdsBounded(log: seq<Trace.Record>)
    ensures forall i :: 0 <= i < |Open(log)| ==> Open(log)[i].0 <= MaxId(log)
  {
    if log != [] { OpenIdsBounded(log[..|log| - 1]); }
  }

  lemma {:induction false} OpenIdsDistinct(log: seq<Trace.Record>)
    requires Nested(log)
    ensures forall i, j :: 0 <= i < j < |Open(log)| ==> Open(log)[i].0 < Open(log)[j].0
  {
    if log != [] {
      OpenIdsDistinct(log[..|log| - 1]);
      OpenIdsBounded(log[..|log| - 1]);
    }
  }

  /** Appending effect records of the innermost span keeps the brackets and the counts. */
  lemma {:induction false} EffectsAppend(log: seq<Trace.Record>, news: seq<Trace.Record>)
    requires Nested(log) && EffectsIn(news, Innermost(Open(log)))
    ensures Nested(log + news) && Open(log + news) == Open(log) && MaxId(log + news) == MaxId(log)
    ensures Counting(log + news) <==> Counting(log)
  {
    hide Nested, Counting, Open, MaxId;
    if news == [] {
      assert log + news == log;
    } else {
      var most, r := news[..|news| - 1], news[|news| - 1];
      EffectsAppend(log, most);
      assert log + news == (log + most) + [r];
      ReadOn(log + most, r);
    }
  }

  lemma SinceStep(log: seq<Trace.Record>, r: Trace.Record, id: nat)
    ensures Since(log + [r], id) ==
            if r.SpanBegin? && r.id == id then ZERO else Since(log, id).Plus(Weight(r))
  {
    Appended(log, r);
  }

  /** ... and moves every count by their weight. */
  lemma {:induction false} SinceAppend(log: seq<Trace.Record>, news: seq<Trace.Record>, id: nat)
    requires forall i :: 0 <= i < |news| ==> !(news[i].SpanBegin? && news[i].id == id)
    ensures Since(log + news, id) == Since(log, id).Plus(Count(news))
  {
    hide Weight, Since;
    if news == [] {
      assert log + news == log;
    } else {
      var most, r := news[..|news| - 1], news[|news| - 1];
      SinceAppend(log, most, id);
      assert log + news == (log + most) + [r];
      assert Since(log + news, id) == Since(log + most, id).Plus(Weight(r)) by {
        SinceStep(log + most, r, id);
      }
    }
  }

  lemma {:induction false} NestedPrefix(log: seq<Trace.Record>, n: nat)
    requires Nested(log) && n <= |log|
    ensures Nested(log[..n])
    ensures n < |log| ==> Nests(log[..n], log[n])
  {
    if n < |log| {
      var most := log[..|log| - 1];
      NestedPrefix(most, n);
      assert log[..n] == most[..n];
    } else {
      assert log[..n] == log;
    }
  }

  lemma {:induction false} CountsAt(log: seq<Trace.Record>, n: nat)
    requires Counting(log) && n < |log|
    ensures Counts(log[..n], log[n])
  {
    if n < |log| - 1 {
      var most := log[..|log| - 1];
      CountsAt(most, n);
      assert log[..n] == most[..n];
    }
  }

  /** An open span was begun by the last record, or was open before it. */
  lemma OpenUnsnoc(log: seq<Trace.Record>, k: nat)
    requires Nested(log) && k < |Open(log)|
    ensures log != []
    ensures var most, r := log[..|log| - 1], log[|log| - 1];
            && Nested(most)
            && if r.SpanBegin? && k == |Open(most)| then
                 Open(log)[k] == (r.id, r.name) && Since(log, r.id) == ZERO
               else
                 k < |Open(most)| && Open(log)[k] == Open(most)[k] &&
                 Since(log, Open(log)[k].0) == Since(most, Open(most)[k].0).Plus(Weight(r))
  {
    hide MaxId, Weight;
    OpenIdsBounded(log[..|log| - 1]);
  }

  lemma CountTail(log: seq<Trace.Record>, i: nat)
    requires 0 < i <= |log|
    ensures i < |log| ==> Count(log[i..]) == Count(log[..|log| - 1][i..]).Plus(Weight(log[|log| - 1]))
    ensures i == |log| ==> Count(log[i..]) == ZERO
  {
    hide Weight;
    if i < |log| {
      assert log[i..][..|log| - i - 1] == log[..|log| - 1][i..];
    }
  }

  /** The begin record of an open span, and the count since it. */
  lemma {:induction false} OpenBegins(log: seq<Trace.Record>, k: nat) returns (i: nat)
    requires Nested(log) && k < |Open(log)|
    ensures i < |log| && log[i].SpanBegin? && (log[i].id, log[i].name) == Open(log)[k]
    ensures Since(log, Open(log)[k].0) == Count(log[i + 1..])
    decreases |log|
  {
    hide Nested, Open, Since, Count, Weight;
    OpenUnsnoc(log, k);
    var most, r := log[..|log| - 1], log[|log| - 1];
    i := |log| - 1;
    if !(r.SpanBegin? && k == |Open(most)|) {
      i := OpenBegins(most, k);
    }
    CountTail(log, i + 1);
  }

  /** Every span-end record has its begin record before it. */
  lemma EndHasBegin(log: seq<Trace.Record>, j: nat) returns (i: nat)
    requires Nested(log) && j < |log| && log[j].SpanEnd?
    ensures i < j && log[i].SpanBegin? && log[i].id == log[j].id && log[i].name == log[j].name
    ensures Since(log[..j], log[j].id) == Count(log[i + 1..j])
  {
    NestedPrefix(log, j);
    i := OpenBegins(log[..j], |Open(log[..j])| - 1);
    assert log[..j][i + 1..] == log[i + 1..j];
  }

  /** ... and where the counters are right, they are the weight of exactly the records
      in between. */
  lemma EndCountsBetween(log: seq<Trace.Record>, j: nat) returns (i: nat)
    requires Sound(log) && j < |log| && log[j].SpanEnd?
    ensures i < j && log[i].SpanBegin? && log[i].id == log[j].id && log[i].name == log[j].name
    ensures Tally(log[j].smeta.effects, log[j].smeta.mutations, log[j].smeta.mocked) == Count(log[i + 1..j])
  {
    i := EndHasBegin(log, j);
    CountsAt(log, j);
  }

  /** Span ids are unique and grow in execution order. */
  lemma IdsGrow(log: seq<Trace.Record>, i: nat, j: nat)
    requires Nested(log) && i < j < |log| && log[i].SpanBegin? && log[j].SpanBegin?
    ensures log[i].id < log[j].id
  {
    NestedPrefix(log, j);
    BegunBounded(log[..j], i);
  }

  lemma {:induction false} BegunBounded(log: seq<Trace.Record>, i: nat)
    requires i < |log| && log[i].SpanBegin?
    ensures log[i].id <= MaxId(log)
  {
    if i < |log| - 1 { BegunBounded(log[..|log| - 1], i); }
  }
}
