/** The loose mock index: queued answers by (effect, key), the mockable set and
    the miss policy. */
module Mocks {
  import opened Options
  import opened Json
  import opened Trace
  import Globs

  /** Names no mock ever serves. */
  predicate NeverMockable(effect: string) {
    || "span." <= effect || "trace." <= effect
    || effect in {"module.resolve", "kernel.boot", "runtime.get", "mailbox.drain", "fuel.state"}
  }

  /** The loop's structural spans are never served whole. */
  predicate NeverSubstituted(span: string) {
    span in {"cell", "bash"}
  }

  datatype MissPolicy = Fail | Live

  datatype Decision = Mockable | Admitted | Excepted | OutsideOnly | Plumbing
  {
    predicate IsMockable() { Mockable? || Admitted? }
  }

  datatype MockKey = Exact(key: Key) | Wildcard

  /** A recorded outcome: an effect's, or a whole span's (`ok`). */
  datatype Outcome = Outcome(output: Json, error: Option<Failure>, ok: Option<bool>)

  datatype Slot = Slot(rec: Outcome, provenance: Json, inlined: Option<nat>, repeats: bool)

  datatype MockIndex = MockIndex(
    queues: map<(string, MockKey), seq<Slot>>,
    only: seq<string>, except: seq<string>, unmatched: MissPolicy,
    onlyHits: nat, exceptHits: nat, inlineHits: seq<nat>)

  predicate Hit(globs: seq<string>, effect: string, facades: seq<string>) {
    exists g | g in globs :: Globs.Matches(g, effect) || exists f | f in facades :: Globs.Matches(g, f)
  }

  function Decide(idx: MockIndex, effect: string, facades: seq<string>): Decision {
    if NeverMockable(effect) then Plumbing
    else if Hit(idx.except, effect, facades) then Excepted
    else if idx.only == [] then Mockable
    else if Hit(idx.only, effect, facades) then Admitted
    else OutsideOnly
  }

  /** What the filters mean: `except` always subtracts, an empty `only` admits everything,
      and plumbing is never mockable -- by the effect's name or any facade around it. */
  lemma MockableMeans(idx: MockIndex, effect: string, facades: seq<string>)
    ensures Decide(idx, effect, facades).IsMockable() <==>
            && !NeverMockable(effect)
            && (forall g, name | g in idx.except && (name == effect || name in facades) :: !Globs.Matches(g, name))
            && (idx.only == [] ||
                exists g, name :: g in idx.only && (name == effect || name in facades) && Globs.Matches(g, name))
  {
    HitMeans(idx.except, effect, facades);
    HitMeans(idx.only, effect, facades);
  }

  lemma HitMeans(globs: seq<string>, effect: string, facades: seq<string>)
    ensures Hit(globs, effect, facades) <==>
            exists g, name :: g in globs && (name == effect || name in facades) && Globs.Matches(g, name)
  {
    if g, name :| g in globs && (name == effect || name in facades) && Globs.Matches(g, name) {
      assert name == effect || exists f | f in facades :: Globs.Matches(g, f);
    }
    if g :| g in globs && (Globs.Matches(g, effect) || exists f | f in facades :: Globs.Matches(g, f)) {
      if !Globs.Matches(g, effect) {
        var f :| f in facades && Globs.Matches(g, f);
      }
    }
  }

  /** The decision, counted. */
  function Counted(idx: MockIndex, d: Decision): MockIndex {
    match d
    case Admitted => idx.(onlyHits := idx.onlyHits + 1)
    case Excepted => idx.(exceptHits := idx.exceptHits + 1)
    case _ => idx
  }

  predicate Waiting(idx: MockIndex, effect: string, k: MockKey) {
    (effect, k) in idx.queues && idx.queues[(effect, k)] != []
  }

  function TakeFrom(idx: MockIndex, effect: string, k: MockKey): (MockIndex, Slot)
    requires Waiting(idx, effect, k)
  {
    var q := idx.queues[(effect, k)];
    var hits := match q[0].inlined
      case Some(i) => if i < |idx.inlineHits| then idx.inlineHits[i := idx.inlineHits[i] + 1] else idx.inlineHits
      case None => idx.inlineHits;
    var queues := if q[0].repeats then idx.queues else idx.queues[(effect, k) := q[1..]];
    (idx.(queues := queues, inlineHits := hits), q[0])
  }

  /** Exact key first, then the wildcard. */
  function Take(idx: MockIndex, effect: string, key: Key): (MockIndex, Option<Slot>) {
    if Waiting(idx, effect, Exact(key)) then
      var (idx', slot) := TakeFrom(idx, effect, Exact(key));
      (idx', Some(slot))
    else if Waiting(idx, effect, Wildcard) then
      var (idx', slot) := TakeFrom(idx, effect, Wildcard);
      (idx', Some(slot))
    else
      (idx, None)
  }

  function Unserved(hits: seq<nat>): seq<nat> {
    if hits == [] then []
    else if hits[|hits| - 1] == 0 then Unserved(hits[..|hits| - 1]) + [|hits| - 1]
    else Unserved(hits[..|hits| - 1])
  }

  /** The hit counts the owning span's end record carries. */
  function Hits(idx: MockIndex): Option<FilterHits> {
    var unserved := Unserved(idx.inlineHits);
    if idx.only == [] && idx.except == [] && unserved == [] then None
    else Some(FilterHits(
      if idx.only == [] then None else Some(idx.onlyHits),
      if idx.except == [] then None else Some(idx.exceptHits),
      unserved))
  }

  // --- what the queues serve ---

  /** `n` consults in a row for one effect and key. */
  function TakeMany(idx: MockIndex, effect: string, key: Key, n: nat): (MockIndex, seq<Option<Slot>>) {
    if n == 0 then (idx, [])
    else
      var (idx1, slots) := TakeMany(idx, effect, key, n - 1);
      var (idx2, slot) := Take(idx1, effect, key);
      (idx2, slots + [slot])
  }

  function Queue(idx: MockIndex, effect: string, k: MockKey): seq<Slot> {
    if (effect, k) in idx.queues then idx.queues[(effect, k)] else []
  }

  /** Answers come out in the order they went in: of a queue without repeating slots,
      the first n consults get the first n slots and leave the rest. */
  lemma {:induction false} QueuesAreFifo(idx: MockIndex, effect: string, key: Key, n: nat)
    requires var q := Queue(idx, effect, Exact(key)); n <= |q| && forall i :: 0 <= i < n ==> !q[i].repeats
    ensures var q := Queue(idx, effect, Exact(key));
            var (after, slots) := TakeMany(idx, effect, key, n);
            && |slots| == n && (forall i :: 0 <= i < n ==> slots[i] == Some(q[i]))
            && Queue(after, effect, Exact(key)) == q[n..]
  {
    if n > 0 {
      QueuesAreFifo(idx, effect, key, n - 1);
      var q := Queue(idx, effect, Exact(key));
      assert q[n - 1..][0] == q[n - 1] && q[n - 1..][1..] == q[n..];
    }
  }

  /** A repeating slot at the head answers every consult from then on. */
  lemma {:induction false} RepeatingSlotStays(idx: MockIndex, effect: string, key: Key, n: nat)
    requires var q := Queue(idx, effect, Exact(key)); q != [] && q[0].repeats
    ensures var q := Queue(idx, effect, Exact(key));
            var (after, slots) := TakeMany(idx, effect, key, n);
            && |slots| == n && (forall i :: 0 <= i < n ==> slots[i] == Some(q[0]))
            && after.queues == idx.queues
  {
    if n > 0 { RepeatingSlotStays(idx, effect, key, n - 1); }
  }

  /** A consult touches at most one queue, the exact key's before the wildcard's. */
  lemma TakeTouchesOneQueue(idx: MockIndex, effect: string, key: Key, other: (string, MockKey))
    ensures var (after, slot) := Take(idx, effect, key);
            && (slot.None? <==> Queue(idx, effect, Exact(key)) == [] && Queue(idx, effect, Wildcard) == [])
            && (other != (effect, Exact(key)) && (other != (effect, Wildcard) || Queue(idx, effect, Exact(key)) != [])
                ==> Queue(after, other.0, other.1) == Queue(idx, other.0, other.1))
  {
  }

  /** The inline records an index reports as unserved are those no consult was answered
      from: every answer from one counts on it. */
  lemma {:induction false} UnservedMeansZeroHits(hits: seq<nat>, i: nat)
    ensures i in Unserved(hits) <==> i < |hits| && hits[i] == 0
  {
    if hits != [] { UnservedMeansZeroHits(hits[..|hits| - 1], i); }
  }

  lemma TakesAreCounted(idx: MockIndex, effect: string, key: Key, i: nat)
    requires i < |idx.inlineHits|
    ensures var (after, slot) := Take(idx, effect, key);
            |after.inlineHits| == |idx.inlineHits| &&
            after.inlineHits[i] == idx.inlineHits[i] + (if slot.Some? && slot.value.inlined == Some(i) then 1 else 0)
  {
  }

  // --- which decisions are counted ---

  /** A glob of the list matches the effect's name or that of a facade around it. */
  ghost predicate Matched(globs: seq<string>, effect: string, facades: seq<string>) {
    exists g, name :: g in globs && (name == effect || name in facades) && Globs.Matches(g, name)
  }

  /** What no mock ever serves: spans and traces, and five effects of the runtime itself. */
  lemma PlumbingIsDecided(idx: MockIndex, effect: string, facades: seq<string>)
    ensures Decide(idx, effect, facades).Plumbing? <==>
            || (exists rest :: effect == "span." + rest) || (exists rest :: effect == "trace." + rest)
            || effect == "module.resolve" || effect == "kernel.boot" || effect == "runtime.get"
            || effect == "mailbox.drain" || effect == "fuel.state"
  {
    hide Hit;
    if "span." <= effect { assert effect == "span." + effect[5..]; }
    if "trace." <= effect { assert effect == "trace." + effect[6..]; }
  }

  /** ... and which spans run whatever a mock has for them. */
  lemma CellsAlwaysRun(span: string)
    ensures NeverSubstituted(span) <==> span == "cell" || span == "bash"
  {
  }

  /** An `except` that matches is counted as such, an `only` that matches where no `except`
      does likewise, and nothing else is counted. */
  lemma DecisionsAreCounted(idx: MockIndex, effect: string, facades: seq<string>)
    requires !Decide(idx, effect, facades).Plumbing?
    ensures var after := Counted(idx, Decide(idx, effect, facades));
            var excepted := Matched(idx.except, effect, facades);
            && after.exceptHits == idx.exceptHits + (if excepted then 1 else 0)
            && after.onlyHits == idx.onlyHits + (if !excepted && Matched(idx.only, effect, facades) then 1 else 0)
            && after == idx.(onlyHits := after.onlyHits, exceptHits := after.exceptHits)
  {
    assert Hit(idx.except, effect, facades) == Matched(idx.except, effect, facades) by {
      HitMeans(idx.except, effect, facades);
    }
    assert Hit(idx.only, effect, facades) == Matched(idx.only, effect, facades) by {
      HitMeans(idx.only, effect, facades);
    }
    assert idx.only == [] ==> !Matched(idx.only, effect, facades);
    hide Hit, Matched, NeverMockable;
  }

  /** The report of a filter: there is one unless the index has no filter and every inline
      record answered; it has the count of each filter there is. */
  lemma HitsTell(idx: MockIndex)
    ensures Hits(idx).None? <==>
            && idx.only == [] && idx.except == []
            && forall i | 0 <= i < |idx.inlineHits| :: idx.inlineHits[i] > 0
    ensures Hits(idx).Some? ==>
              var report := Hits(idx).value;
              && report.only == (if idx.only == [] then None else Some(idx.onlyHits))
              && report.except == (if idx.except == [] then None else Some(idx.exceptHits))
              && forall i: nat :: i in report.unserved <==> i < |idx.inlineHits| && idx.inlineHits[i] == 0
  {
    hide Unserved;
    var unserved := Unserved(idx.inlineHits);
    forall i: nat ensures i in unserved <==> i < |idx.inlineHits| && idx.inlineHits[i] == 0 {
      UnservedMeansZeroHits(idx.inlineHits, i);
    }
    if unserved != [] { assert unserved[0] in unserved; }
  }
}
