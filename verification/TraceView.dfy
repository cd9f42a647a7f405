/** The immediate-children view of a trace, and the proof that drilling it from
    the root is an exact tree walk of the log. */
module TraceView {
  import opened Options
  import opened Trace
  import opened Pipeline
  import opened Brackets
  import opened Accounting
  import opened Nesting

  datatype Row =
    | EffectRow(at: nat, effect: string, cls: Class, mocked: bool, unmatched: bool,
                error: Option<string>, span: Option<nat>)
    | SpanRow(at: nat, id: nat, name: string, kind: Option<string>, cls: Class, mockedSpan: bool,
              ok: bool, mutations: nat, effects: nat, servedCount: nat)

  /** A span's parent lives on its begin record only; `parents.get(id)`, flattened. */
  function ParentOf(log: seq<Trace.Record>, id: nat): Option<nat> {
    if log == [] then None
    else
      var r := log[|log| - 1];
      if r.SpanBegin? && r.id == id then r.parent else ParentOf(log[..|log| - 1], id)
  }

  /** Records that become rows. */
  predicate IsEntry(r: Trace.Record) { r.Effect? || r.SpanEnd? }

  /** The scope an entry sits in: an effect's own span, a span's parent. */
  function Owner(log: seq<Trace.Record>, r: Trace.Record): Option<nat> {
    if r.Effect? then r.span else if r.SpanEnd? then ParentOf(log, r.id) else None
  }

  function CellOf(r: Trace.Record): Option<string> {
    if r.Cell? then Some(r.cellId) else r.cell
  }

  function RowOf(r: Trace.Record, n: nat): Row
    requires IsEntry(r)
  {
    if r.Effect? then
      EffectRow(n, r.name, r.emeta.cls, r.emeta.mocked, r.emeta.mock.Unmatched?,
                if r.error.Some? then Some(r.error.value.kind) else None, r.span)
    else
      var wouldMutate := r.smeta.servedFrom.Some? && r.smeta.kind == Some("mutator");
      SpanRow(n, r.id, r.name, r.smeta.kind, if r.smeta.mutations > 0 || wouldMutate then Mutate else Read,
              r.smeta.servedFrom.Some?, r.ok, r.smeta.mutations, r.smeta.effects, r.smeta.mocked)
  }

  predicate Shown(log: seq<Trace.Record>, i: nat, cell: Option<string>, scope: Option<nat>)
    requires i < |log|
  {
    && (cell.Some? ==> CellOf(log[i]) == cell)
    && IsEntry(log[i]) && Owner(log, log[i]) == scope
  }

  function ChildrenUpTo(log: seq<Trace.Record>, n: nat, cell: Option<string>, scope: Option<nat>): (rows: seq<Row>)
    requires n <= |log|
    ensures |rows| <= n
  {
    if n == 0 then []
    else
      ChildrenUpTo(log, n - 1, cell, scope) +
      if Shown(log, n - 1, cell, scope) then [RowOf(log[n - 1], n)] else []
  }

  /** `immediate_children`: the entries directly in a scope, in log order, with
      their sequence numbers (positions counted from 1). */
  function ImmediateChildren(log: seq<Trace.Record>, cell: Option<string>, scope: Option<nat>): seq<Row> {
    ChildrenUpTo(log, |log|, cell, scope)
  }

  // --- the rows of one scope ---

  ghost predicate RowAt(log: seq<Trace.Record>, row: Row) {
    1 <= row.at <= |log| && IsEntry(log[row.at - 1]) && row == RowOf(log[row.at - 1], row.at)
  }

  ghost predicate RowsAt(log: seq<Trace.Record>, rows: seq<Row>) {
    forall k :: 0 <= k < |rows| ==> RowAt(log, rows[k])
  }

  lemma {:induction false} ChildrenAreShown(log: seq<Trace.Record>, n: nat, cell: Option<string>, scope: Option<nat>)
    requires n <= |log|
    ensures var rows := ChildrenUpTo(log, n, cell, scope);
            RowsAt(log, rows) && forall k :: 0 <= k < |rows| ==> Shown(log, rows[k].at - 1, cell, scope)
  {
    if n > 0 { ChildrenAreShown(log, n - 1, cell, scope); }
  }

  // --- the tree in a closed trace ---

  ghost predicate Begun(log: seq<Trace.Record>, id: nat) {
    exists i :: 0 <= i < |log| && log[i].SpanBegin? && log[i].id == id
  }

  ghost predicate Ended(log: seq<Trace.Record>, id: nat) {
    exists i :: 0 <= i < |log| && log[i].SpanEnd? && log[i].id == id
  }

  ghost predicate IsOpen(log: seq<Trace.Record>, id: nat) {
    exists k :: 0 <= k < |Open(log)| && Open(log)[k].0 == id
  }

  lemma OpenStep(log: seq<Trace.Record>, r: Trace.Record, id: nat)
    requires Nested(log + [r])
    ensures IsOpen(log + [r], id) <==>
            (r.SpanBegin? && r.id == id) || (IsOpen(log, id) && !(r.SpanEnd? && r.id == id))
  {
    var all := log + [r];
    Appended(log, r);
    var open := Open(log);
    OpenIdsDistinct(log);
    if r.SpanBegin? {
      assert Open(all) == open + [(r.id, r.name)];
      assert Open(all)[|open|].0 == r.id;
      forall k | 0 <= k < |open| ensures Open(all)[k] == open[k] {}
    } else if r.SpanEnd? {
      assert Open(all) == open[..|open| - 1];
      forall k | 0 <= k < |open| - 1 ensures Open(all)[k] == open[k] {}
    } else {
      assert Open(all) == open;
    }
  }

  /** Every begun span is open or ended, never both. */
  lemma {:induction false} BegunIsOpenOrEnded(log: seq<Trace.Record>, id: nat)
    requires Nested(log)
    ensures Begun(log, id) <==> IsOpen(log, id) || Ended(log, id)
    ensures !(IsOpen(log, id) && Ended(log, id))
  {
    if log != [] {
      var most, r := log[..|log| - 1], log[|log| - 1];
      assert log == most + [r];
      BegunIsOpenOrEnded(most, id);
      OpenStep(most, r, id);
      assert Begun(log, id) <==> Begun(most, id) || (r.SpanBegin? && r.id == id) by {
        if Begun(most, id) { var i :| 0 <= i < |most| && most[i].SpanBegin? && most[i].id == id; assert log[i] == most[i]; }
        if r.SpanBegin? && r.id == id { assert log[|most|] == r; }
      }
      assert Ended(log, id) <==> Ended(most, id) || (r.SpanEnd? && r.id == id) by {
        if Ended(most, id) { var i :| 0 <= i < |most| && most[i].SpanEnd? && most[i].id == id; assert log[i] == most[i]; }
        if r.SpanEnd? && r.id == id { assert log[|most|] == r; }
      }
      if r.SpanEnd? && r.id == id { assert Open(most)[|Open(most)| - 1].0 == id; }
      if r.SpanBegin? && r.id == id && Begun(most, id) {
        var i :| 0 <= i < |most| && most[i].SpanBegin? && most[i].id == id;
        BegunBounded(most, i);
      }
    }
  }

  lemma {:induction false} ParentIsEarlier(log: seq<Trace.Record>, id: nat)
    requires Nested(log) && ParentOf(log, id).Some?
    ensures Begun(log, ParentOf(log, id).value) && ParentOf(log, id).value < id
  {
    var most, r := log[..|log| - 1], log[|log| - 1];
    if r.SpanBegin? && r.id == id {
      BegunIsOpenOrEnded(most, r.parent.value);
      OpenIdsBounded(most);
    } else {
      ParentIsEarlier(most, id);
    }
    var p := ParentOf(log, id).value;
    var i :| 0 <= i < |most| && most[i].SpanBegin? && most[i].id == p;
    assert log[i] == most[i];
  }

  /** In a closed trace the scope of an entry is a span with an end record. */
  lemma OwnerEnded(log: seq<Trace.Record>, i: nat)
    requires Closed(log) && i < |log| && IsEntry(log[i]) && Owner(log, log[i]).Some?
    ensures Ended(log, Owner(log, log[i]).value)
  {
    var u := Owner(log, log[i]).value;
    if log[i].Effect? {
      NestedPrefix(log, i);
      BegunIsOpenOrEnded(log[..i], u);
      var j :| 0 <= j < |log[..i]| && log[..i][j].SpanBegin? && log[..i][j].id == u;
      assert log[j].SpanBegin? && log[j].id == u;
    } else {
      ParentIsEarlier(log, log[i].id);
    }
    assert Begun(log, u);
    BegunIsOpenOrEnded(log, u);
  }

  lemma EndsAreUnique(log: seq<Trace.Record>, i: nat, j: nat)
    requires Nested(log) && i < j < |log| && log[i].SpanEnd? && log[j].SpanEnd?
    ensures log[i].id != log[j].id
  {
    NestedPrefix(log, j);
    var before := log[..j];
    assert before[i] == log[i];
    assert Open(before)[|Open(before)| - 1].0 == log[j].id;
    BegunIsOpenOrEnded(before, log[j].id);
  }

  /** The position of a span's end record. */
  ghost function EndOf(log: seq<Trace.Record>, id: nat): (e: nat)
    requires Ended(log, id)
    ensures e < |log| && log[e].SpanEnd? && log[e].id == id
  {
    var e :| 0 <= e < |log| && log[e].SpanEnd? && log[e].id == id; e
  }

  /** How far from the root an entry's scope can be: the climb's measure. */
  ghost function Height(log: seq<Trace.Record>, i: nat): nat
    requires i < |log|
  {
    match Owner(log, log[i]) case None => 0 case Some(u) => u + 1
  }

  ghost predicate Entry(log: seq<Trace.Record>, i: nat) {
    i < |log| && IsEntry(log[i])
  }

  /** The entry whose scope contains `i`'s, one level up. */
  ghost function Up(log: seq<Trace.Record>, i: nat): (e: nat)
    requires Closed(log) && Entry(log, i) && Owner(log, log[i]).Some?
    ensures Entry(log, e) && log[e].SpanEnd? && log[e].id == Owner(log, log[i]).value
    ensures Height(log, e) < Height(log, i)
  {
    OwnerEnded(log, i);
    var u := Owner(log, log[i]).value;
    var e := EndOf(log, u);
    assert ParentOf(log, u).Some? ==> ParentOf(log, u).value < u by {
      if ParentOf(log, u).Some? { ParentIsEarlier(log, u); }
    }
    e
  }

  /** The ancestor (or self) of entry `i` that sits directly in `scope`, if any. */
  ghost function Ancestor(log: seq<Trace.Record>, i: nat, scope: Option<nat>): (a: Option<nat>)
    requires Closed(log) && Entry(log, i)
    ensures a.Some? ==> Entry(log, a.value) && Owner(log, log[a.value]) == scope
    decreases Height(log, i)
  {
    if Owner(log, log[i]) == scope then Some(i)
    else if Owner(log, log[i]).None? then None
    else Ancestor(log, Up(log, i), scope)
  }

  /** Everything hangs from the root. */
  lemma {:induction false} RootReached(log: seq<Trace.Record>, i: nat)
    requires Closed(log) && Entry(log, i)
    ensures Ancestor(log, i, None).Some?
    decreases Height(log, i)
  {
    if Owner(log, log[i]).Some? { RootReached(log, Up(log, i)); }
  }

  /** Climbing never meets a span younger than where it starts. */
  lemma {:induction false} ClimbGoesDown(log: seq<Trace.Record>, i: nat, id: nat)
    requires Closed(log) && Entry(log, i) && Height(log, i) <= id
    ensures Ancestor(log, i, Some(id)).None?
    decreases Height(log, i)
  {
    if Owner(log, log[i]).Some? { ClimbGoesDown(log, Up(log, i), id); }
  }

  /** Does entry `b` of some scope lead to `i`: as itself or as a span above it? */
  ghost predicate Leads(log: seq<Trace.Record>, b: nat, i: nat)
    requires Closed(log) && Entry(log, b) && Entry(log, i)
  {
    b == i || (log[b].SpanEnd? && Ancestor(log, i, Some(log[b].id)).Some?)
  }

  /** Of all the entries of a scope, exactly the ancestor of `i` leads to `i`. */
  lemma {:induction false} OnlyAncestorLeads(log: seq<Trace.Record>, b: nat, i: nat)
    requires Closed(log) && Entry(log, b) && Entry(log, i)
    ensures Leads(log, b, i) <==> Ancestor(log, i, Owner(log, log[b])) == Some(b)
    decreases Height(log, i)
  {
    var s := Owner(log, log[b]);
    var own := Owner(log, log[i]);
    if b != i {
      if own == s {
        if log[b].SpanEnd? && own.Some? {
          var up := Up(log, i);
          assert Height(log, up) <= own.value;
          if s.Some? { ParentIsEarlier(log, log[b].id); }
          ClimbGoesDown(log, i, log[b].id);
        }
      } else if own.Some? {
        var up := Up(log, i);
        if log[b].SpanEnd? && own == Some(log[b].id) {
          if up != b {
            EndsAreUnique(log, if up < b then up else b, if up < b then b else up);
          }
        }
        OnlyAncestorLeads(log, b, up);
        if up == b {
          assert own == Some(log[b].id);
        }
      }
    }
  }

  // --- drilling ---

  /** Rows whose spans are all younger than `above` and begun in the log. */
  ghost predicate Deeper(log: seq<Trace.Record>, rows: seq<Row>, above: int) {
    forall k :: 0 <= k < |rows| && rows[k].SpanRow? ==> above < rows[k].id <= MaxId(log)
  }

  lemma ChildrenAreDeeper(log: seq<Trace.Record>, scope: Option<nat>)
    requires Nested(log)
    ensures RowsAt(log, ImmediateChildren(log, None, scope))
    ensures Deeper(log, ImmediateChildren(log, None, scope), if scope.Some? then scope.value else -1)
  {
    hide Nested, Open, MaxId, Since, Count, ParentOf, ChildrenUpTo;
    ChildrenAreShown(log, |log|, None, scope);
    var rows := ImmediateChildren(log, None, scope);
    forall k | 0 <= k < |rows| && rows[k].SpanRow?
      ensures (if scope.Some? then scope.value else -1) < rows[k].id <= MaxId(log)
    {
      var j := rows[k].at - 1;
      assert RowAt(log, rows[k]);
      var b := EndHasBegin(log, j);
      BegunBounded(log, b);
      if scope.Some? { ParentIsEarlier(log, rows[k].id); }
    }
  }

  /** A row's number, then everything drilled out of its span. */
  function DrillRow(log: seq<Trace.Record>, row: Row, above: int): seq<nat>
    requires Nested(log) && Deeper(log, [row], above)
    decreases MaxId(log) - above, 0
  {
    if row.SpanRow? then
      assert [row][0] == row;
      ChildrenAreDeeper(log, Some(row.id));
      [row.at] + DrillRows(log, ImmediateChildren(log, None, Some(row.id)), row.id)
    else [row.at]
  }

  function DrillRows(log: seq<Trace.Record>, rows: seq<Row>, above: int): seq<nat>
    requires Nested(log) && Deeper(log, rows, above)
    decreases MaxId(log) - above, |rows| + 1
  {
    if rows == [] then [] else DrillRow(log, rows[0], above) + DrillRows(log, rows[1..], above)
  }

  function DrillFrom(log: seq<Trace.Record>, scope: Option<nat>): seq<nat>
    requires Nested(log)
  {
    ChildrenAreDeeper(log, scope);
    DrillRows(log, ImmediateChildren(log, None, scope), if scope.Some? then scope.value else -1)
  }

  /** How many of the rows lead to entry `i`. */
  ghost function Leading(log: seq<Trace.Record>, rows: seq<Row>, i: nat): nat
    requires Closed(log) && Entry(log, i) && RowsAt(log, rows)
  {
    if rows == [] then 0
    else
      assert RowAt(log, rows[0]);
      (if Leads(log, rows[0].at - 1, i) then 1 else 0) + Leading(log, rows[1..], i)
  }

  lemma {:induction false} LeadingConcat(log: seq<Trace.Record>, a: seq<Row>, b: seq<Row>, i: nat)
    requires Closed(log) && Entry(log, i) && RowsAt(log, a) && RowsAt(log, b)
    ensures RowsAt(log, a + b)
    ensures Leading(log, a + b, i) == Leading(log, a, i) + Leading(log, b, i)
  {
    if a == [] {
      assert a + b == b;
    } else {
      assert (a + b)[1..] == a[1..] + b;
      LeadingConcat(log, a[1..], b, i);
    }
  }

  ghost function Below(a: Option<nat>, n: nat): nat {
    if a.Some? && a.value < n then 1 else 0
  }

  lemma LastRowLeads(log: seq<Trace.Record>, n: nat, scope: Option<nat>, i: nat)
    requires Closed(log) && Entry(log, i) && 0 < n <= |log| && RowsAt(log, ChildrenUpTo(log, n - 1, None, scope))
    requires Shown(log, n - 1, None, scope)
    ensures RowsAt(log, ChildrenUpTo(log, n, None, scope))
    ensures Leading(log, ChildrenUpTo(log, n, None, scope), i) ==
            Leading(log, ChildrenUpTo(log, n - 1, None, scope), i) +
            if Ancestor(log, i, scope) == Some(n - 1) then 1 else 0
  {
    hide Closed;
    var last := [RowOf(log[n - 1], n)];
    LeadingConcat(log, ChildrenUpTo(log, n - 1, None, scope), last, i);
    assert last[1..] == [];
    OnlyAncestorLeads(log, n - 1, i);
  }

  /** Exactly one row of a scope leads to each entry under it, and none elsewhere. */
  lemma {:induction false} OneRowLeads(log: seq<Trace.Record>, n: nat, scope: Option<nat>, i: nat)
    requires Closed(log) && Entry(log, i) && n <= |log|
    ensures RowsAt(log, ChildrenUpTo(log, n, None, scope))
    ensures Leading(log, ChildrenUpTo(log, n, None, scope), i) == Below(Ancestor(log, i, scope), n)
  {
    hide Closed, Leading, Ancestor;
    if n > 0 {
      OneRowLeads(log, n - 1, scope, i);
      if Shown(log, n - 1, None, scope) {
        LastRowLeads(log, n, scope, i);
      } else {
        assert ChildrenUpTo(log, n, None, scope) == ChildrenUpTo(log, n - 1, None, scope);
        assert Ancestor(log, i, scope) != Some(n - 1);
      }
    } else {
      NoRowsLead(log, i);
    }
  }

  lemma NoRowsLead(log: seq<Trace.Record>, i: nat)
    requires Closed(log) && Entry(log, i)
    ensures Leading(log, [], i) == 0
  {
  }

  /** A span's own end record is not inside it. */
  lemma EndIsOutside(log: seq<Trace.Record>, i: nat)
    requires Closed(log) && Entry(log, i) && log[i].SpanEnd?
    ensures Ancestor(log, i, Some(log[i].id)).None?
  {
    if Owner(log, log[i]).Some? { ParentIsEarlier(log, log[i].id); }
    ClimbGoesDown(log, i, log[i].id);
  }

  /** Drilling a row lists an entry once if the row leads to it, else not at all. */
  lemma {:induction false} DrillRowLists(log: seq<Trace.Record>, row: Row, above: int, i: nat)
    requires Closed(log) && Deeper(log, [row], above) && Entry(log, i) && RowAt(log, row)
    ensures multiset(DrillRow(log, row, above))[i + 1] == if Leads(log, row.at - 1, i) then 1 else 0
    decreases MaxId(log) - above, 0
  {
    hide Nested, Open, Leading, Ancestor, DrillRow, Deeper, RowsAt;
    if row.SpanRow? {
      var children := ImmediateChildren(log, None, Some(row.id));
      ChildrenAreDeeper(log, Some(row.id));
      OneRowLeads(log, |log|, Some(row.id), i);
      DrillSpan(log, row, above, i);
      DrillListsLeads(log, children, row.id, i);
      if row.at == i + 1 { EndIsOutside(log, i); }
    } else {
      DrillEffect(log, row, above);
    }
  }

  lemma CountsAdd(a: seq<nat>, b: seq<nat>, x: nat)
    ensures multiset(a + b)[x] == multiset(a)[x] + multiset(b)[x]
  {
  }

  /** A span's drill is its own number and its children's drill. */
  lemma DrillSpan(log: seq<Trace.Record>, row: Row, above: int, i: nat)
    requires Nested(log) && Deeper(log, [row], above) && row.SpanRow?
    requires Deeper(log, ImmediateChildren(log, None, Some(row.id)), row.id)
    ensures row.id > above && row.id <= MaxId(log)
    ensures multiset(DrillRow(log, row, above))[i + 1] ==
            (if row.at == i + 1 then 1 else 0)
            + multiset(DrillRows(log, ImmediateChildren(log, None, Some(row.id)), row.id))[i + 1]
  {
    hide Nested, MaxId, DrillRows, ImmediateChildren;
    assert [row][0] == row;
    var rest := DrillRows(log, ImmediateChildren(log, None, Some(row.id)), row.id);
    CountsAdd([row.at], rest, i + 1);
  }

  lemma DrillEffect(log: seq<Trace.Record>, row: Row, above: int)
    requires Nested(log) && Deeper(log, [row], above) && !row.SpanRow?
    ensures DrillRow(log, row, above) == [row.at]
  {
  }

  lemma {:induction false} DrillListsLeads(log: seq<Trace.Record>, rows: seq<Row>, above: int, i: nat)
    requires Closed(log) && Deeper(log, rows, above) && Entry(log, i) && RowsAt(log, rows)
    ensures multiset(DrillRows(log, rows, above))[i + 1] == Leading(log, rows, i)
    decreases MaxId(log) - above, |rows| + 1
  {
    hide *;
    if rows == [] {
      DrillNone(log, rows, above, i);
    } else {
      OneAndRest(log, rows, above);
      DrillRowLists(log, rows[0], above, i);
      DrillListsLeads(log, rows[1..], above, i);
      DrillNext(log, rows, above, i);
      LeadingNext(log, rows, i);
    }
  }

  lemma DrillNone(log: seq<Trace.Record>, rows: seq<Row>, above: int, i: nat)
    requires Closed(log) && Deeper(log, rows, above) && Entry(log, i) && RowsAt(log, rows) && rows == []
    ensures multiset(DrillRows(log, rows, above))[i + 1] == 0 && Leading(log, rows, i) == 0
  {
    hide Nested, Open, MaxId;
  }

  lemma DrillNext(log: seq<Trace.Record>, rows: seq<Row>, above: int, i: nat)
    requires Nested(log) && Deeper(log, rows, above) && rows != []
    requires Deeper(log, [rows[0]], above) && Deeper(log, rows[1..], above)
    ensures multiset(DrillRows(log, rows, above))[i + 1] ==
            multiset(DrillRow(log, rows[0], above))[i + 1] + multiset(DrillRows(log, rows[1..], above))[i + 1]
  {
    hide Nested, MaxId, Deeper, DrillRow;
  }

  lemma OneAndRest(log: seq<Trace.Record>, rows: seq<Row>, above: int)
    requires Closed(log) && Deeper(log, rows, above) && RowsAt(log, rows) && rows != []
    ensures Nested(log) && Deeper(log, [rows[0]], above) && Deeper(log, rows[1..], above)
    ensures RowAt(log, rows[0]) && Entry(log, rows[0].at - 1) && RowsAt(log, rows[1..])
  {
  }

  lemma LeadingNext(log: seq<Trace.Record>, rows: seq<Row>, i: nat)
    requires Closed(log) && Entry(log, i) && RowsAt(log, rows) && rows != []
    requires RowAt(log, rows[0]) && RowsAt(log, rows[1..])
    ensures Leading(log, rows, i) == (if Leads(log, rows[0].at - 1, i) then 1 else 0) + Leading(log, rows[1..], i)
  {
    hide Closed, Leads;
  }

  lemma {:induction false} DrillListsEntries(log: seq<Trace.Record>, rows: seq<Row>, above: int, x: nat)
    requires Nested(log) && Deeper(log, rows, above) && x in DrillRows(log, rows, above) && RowsAt(log, rows)
    ensures 1 <= x <= |log| && IsEntry(log[x - 1])
    decreases MaxId(log) - above, |rows|
  {
    var row := rows[0];
    assert RowAt(log, row);
    assert [row][0] == row;
    if x != row.at {
      if x in DrillRows(log, rows[1..], above) {
        DrillListsEntries(log, rows[1..], above, x);
      } else {
        ChildrenAreDeeper(log, Some(row.id));
        DrillListsEntries(log, ImmediateChildren(log, None, Some(row.id)), row.id, x);
      }
    }
  }

  /** Drilling a closed trace from the root lists every effect record and every
      span-end record exactly once, and nothing else. */
  lemma DrillIsExact(log: seq<Trace.Record>, x: nat)
    requires Closed(log)
    ensures multiset(DrillFrom(log, None))[x] ==
            if 1 <= x <= |log| && IsEntry(log[x - 1]) then 1 else 0
  {
    ChildrenAreDeeper(log, None);
    if 1 <= x <= |log| && IsEntry(log[x - 1]) {
      RootReached(log, x - 1);
      OneRowLeads(log, |log|, None, x - 1);
      DrillListsLeads(log, ImmediateChildren(log, None, None), -1, x - 1);
    } else if x in DrillFrom(log, None) {
      DrillListsEntries(log, ImmediateChildren(log, None, None), -1, x);
    }
  }

  /** ... for every trace a broker leaves when a cell is done, a replaying one included
      unless a span end diverged. */
  lemma EveryFinishedRunDrillsExactly(h: Host, st: State, ops: seq<Op>, x: nat)
    requires Fresh(st) && ops != [] && ops[|ops| - 1].CellDone? && NoLostEnd(h, st, ops)
    ensures var log := StepAll(h, st, ops).log;
            && Closed(log)
            && multiset(DrillFrom(log, None))[x] ==
               if 1 <= x <= |log| && IsEntry(log[x - 1]) then 1 else 0
  {
    hide StepAll, NoLostEnd, Nested, DrillFrom;
    FinishedRunsAreClosed(h, st, ops);
    DrillIsExact(StepAll(h, st, ops).log, x);
  }

  /** ... and so for every Record and Mock mode run. */
  lemma EveryLiveRunDrillsExactly(h: Host, st: State, ops: seq<Op>, x: nat)
    requires Fresh(st) && !st.mode.Replay? && ops != [] && ops[|ops| - 1].CellDone?
    ensures var log := StepAll(h, st, ops).log;
            && Closed(log)
            && multiset(DrillFrom(log, None))[x] ==
               if 1 <= x <= |log| && IsEntry(log[x - 1]) then 1 else 0
  {
    hide StepAll, NoLostEnd, Nested, DrillFrom;
    StepAllKeepsMode(h, st, ops);
    EveryFinishedRunDrillsExactly(h, st, ops, x);
  }

  // --- what a collapsed span row says ---

  predicate Mutates(r: Trace.Record) { r.Effect? && r.emeta.cls.Mutate? }

  predicate AnyMutates(log: seq<Trace.Record>) { exists r :: r in log && Mutates(r) }

  lemma WeightOfMutation(r: Trace.Record)
    ensures Weight(r).mutations > 0 <==> Mutates(r)
  {
  }

  lemma {:induction false} MutationsAreCounted(log: seq<Trace.Record>)
    ensures Count(log).mutations > 0 <==> AnyMutates(log)
  {
    hide Weight, Mutates;
    if log != [] {
      var most, last := log[..|log| - 1], log[|log| - 1];
      MutationsAreCounted(most);
      WeightOfMutation(last);
      assert forall r :: r in log <==> r in most || r == last by { assert log == most + [last]; }
    }
  }

  /** In every Record and Mock mode run, a collapsed span row is marked as mutating exactly when a mutating
      effect was recorded between the span's begin and end, at any depth -- or when the
      span was served whole and calls itself a mutator. */
  lemma RowTellsMutations(h: Host, st: State, ops: seq<Op>, end: State, j: nat) returns (i: nat)
    requires Fresh(st) && !st.mode.Replay? && end == StepAll(h, st, ops)
    requires j < |end.log| && end.log[j].SpanEnd?
    ensures i < j && end.log[i].SpanBegin? && end.log[i].id == end.log[j].id
    ensures RowOf(end.log[j], j + 1).cls.Mutate? <==>
            AnyMutates(end.log[i + 1..j])
            || (end.log[j].smeta.servedFrom.Some? && end.log[j].smeta.kind == Some("mutator"))
  {
    hide StepAll, Count;
    i := CountersAreConserved(h, st, ops, end, j);
    MutationsAreCounted(end.log[i + 1..j]);
  }

  // --- columns ---

  /** The row of an effect: its number, name and class, whether a mock answered it or could
      not, the type of its error, and the span it is in. */
  lemma EffectColumns(r: Trace.Record, n: nat)
    requires r.Effect?
    ensures var row := RowOf(r, n);
            && row.EffectRow? && row.at == n && row.effect == r.name && row.cls == r.emeta.cls && row.span == r.span
            && row.mocked == r.emeta.mocked && (row.unmatched <==> r.emeta.mock == Unmatched)
            && row.error == match r.error case Some(Failure(kind, _)) => Some(kind) case None => None
  {
  }

  /** The row of a span, told by its end: number and id, name and kind, its verdict, its
      counts, and whether it was served whole. */
  lemma SpanColumns(r: Trace.Record, n: nat)
    requires r.SpanEnd?
    ensures var row := RowOf(r, n);
            && row.SpanRow? && row.at == n && row.id == r.id && row.name == r.name && row.kind == r.smeta.kind
            && row.ok == r.ok
            && row.mutations == r.smeta.mutations && row.effects == r.smeta.effects && row.servedCount == r.smeta.mocked
            && (row.mockedSpan <==> r.smeta.servedFrom.Some?)
  {
  }

  // --- one cell's rows ---

  lemma {:induction false} RowIsShown(log: seq<Trace.Record>, n: nat, cell: Option<string>, scope: Option<nat>,
                                      row: Row)
    requires n <= |log|
    ensures row in ChildrenUpTo(log, n, cell, scope) <==>
            exists i | 0 <= i < n :: Shown(log, i, cell, scope) && row == RowOf(log[i], i + 1)
  {
    hide Shown, RowOf;
    if n > 0 {
      RowIsShown(log, n - 1, cell, scope, row);
    }
  }

  /** The view of one cell has the rows of the whole view whose records were written in that
      cell. */
  lemma CellsRows(log: seq<Trace.Record>, cell: string, scope: Option<nat>, row: Row)
    ensures row in ImmediateChildren(log, Some(cell), scope) <==>
            && row in ImmediateChildren(log, None, scope)
            && 1 <= row.at <= |log|
            && match log[row.at - 1]
               case Effect(_, c, _, _, _, _, _, _) => c == Some(cell)
               case SpanEnd(_, _, c, _, _, _, _) => c == Some(cell)
               case _ => false
  {
    hide ChildrenUpTo, Owner;
    RowIsShown(log, |log|, Some(cell), scope, row);
    RowIsShown(log, |log|, None, scope, row);
    if i :| 0 <= i < |log| && Shown(log, i, None, scope) && row == RowOf(log[i], i + 1) {
      assert row.at - 1 == i;
    }
  }
}
