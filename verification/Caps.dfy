/** Capability grants: sets of exact entries ("net.http") and prefix wildcards
    ("data.*"), the algebra on them, and what it means over all capability
    strings. */
module Caps {
  import opened Options
  import Text

  predicate EntryCovers(entry: string, cap: string) {
    match Text.StripSuffix(entry, ".*")
    case Some(stem) => stem + "." <= cap
    case None => entry == cap
  }

  datatype GrantSet = GrantSet(entries: set<string>)
  {
    predicate Allowed(cap: string) {
      exists e | e in entries :: EntryCovers(e, cap)
    }

    predicate CoversEntry(entry: string) {
      match Text.StripSuffix(entry, ".*")
      case Some(stem) =>
        exists e | e in entries :: WildcardCovers(e, stem)
      case None => Allowed(entry)
    }

    predicate Covers(other: GrantSet) {
      forall e | e in other.entries :: CoversEntry(e)
    }

    function Attenuate(other: GrantSet): GrantSet {
      GrantSet((set e | e in entries && other.CoversEntry(e)) +
               (set e | e in other.entries && CoversEntry(e)))
    }
  }

  /** `e` is a wildcard at least as broad as `stem.*`. */
  predicate WildcardCovers(e: string, stem: string) {
    match Text.StripSuffix(e, ".*")
    case Some(es) => es + "." <= stem + "."
    case None => false
  }

  // --- the meaning of a grant set: the capabilities it allows ---

  /** Everything `b` allows, `a` allows. */
  ghost predicate Includes(a: GrantSet, b: GrantSet) {
    forall cap: string :: b.Allowed(cap) ==> a.Allowed(cap)
  }

  function Repeat(c: char, n: nat): (r: string)
    ensures |r| == n && forall i :: 0 <= i < n ==> r[i] == c
  {
    seq(n, i => c)
  }

  /** A length longer than every entry of the set. */
  lemma LongerThanAll(entries: set<string>) returns (n: nat)
    ensures forall e :: e in entries ==> |e| < n
  {
    n := 0;
    var left := entries;
    while left != {}
      invariant left <= entries
      invariant forall e :: e in entries - left ==> |e| < n
      decreases left
    {
      var e :| e in left;
      left := left - {e};
      n := if |e| < n then n else |e| + 1;
    }
  }

  /** A capability under `stem.` with a dot-free fresh tail: only a wildcard at
      least as broad as `stem.*` can allow it. */
  lemma FreshCapability(g: GrantSet, stem: string) returns (cap: string)
    ensures stem + "." <= cap
    ensures g.Allowed(cap) ==> exists e :: e in g.entries && WildcardCovers(e, stem)
  {
    var n := LongerThanAll(g.entries);
    cap := stem + "." + Repeat('x', n);
    if g.Allowed(cap) {
      var e :| e in g.entries && EntryCovers(e, cap);
      var es := Text.StripSuffix(e, ".*").value;
      var have, want := es + ".", stem + ".";
      assert have[|es|] == '.' && cap[|es|] == have[|es|];
      assert forall i :: |want| <= i < |cap| ==> cap[i] == 'x';
      assert have == cap[..|have|] == want[..|have|];
      assert WildcardCovers(e, stem);
    }
  }

  lemma CoversEntryMeans(g: GrantSet, entry: string)
    ensures g.CoversEntry(entry) <==> forall cap: string :: EntryCovers(entry, cap) ==> g.Allowed(cap)
  {
    match Text.StripSuffix(entry, ".*") {
      case None =>
        assert EntryCovers(entry, entry);
      case Some(stem) =>
        if g.CoversEntry(entry) {
          var e :| e in g.entries && WildcardCovers(e, stem);
          var es := Text.StripSuffix(e, ".*").value;
          forall cap | EntryCovers(entry, cap) ensures g.Allowed(cap) {
            assert es + "." <= stem + "." <= cap;
            assert EntryCovers(e, cap);
          }
        } else {
          var cap := FreshCapability(g, stem);
          assert EntryCovers(entry, cap) && !g.Allowed(cap);
        }
    }
  }

  /** `covers` decides inclusion over all capability strings, both ways. */
  lemma CoversIsInclusion(a: GrantSet, b: GrantSet)
    ensures a.Covers(b) <==> Includes(a, b)
  {
    if a.Covers(b) {
      forall cap: string | b.Allowed(cap) ensures a.Allowed(cap) {
        var e :| e in b.entries && EntryCovers(e, cap);
        CoversEntryMeans(a, e);
      }
    }
    if Includes(a, b) {
      forall e | e in b.entries ensures a.CoversEntry(e) {
        CoversEntryMeans(a, e);
        assert forall cap: string :: EntryCovers(e, cap) ==> b.Allowed(cap);
      }
    }
  }

  /** Of two entries matching one capability, the narrower is covered by the other. */
  lemma NarrowerSurvives(e1: string, e2: string, cap: string)
    requires EntryCovers(e1, cap) && EntryCovers(e2, cap)
    ensures GrantSet({e2}).CoversEntry(e1) || GrantSet({e1}).CoversEntry(e2)
  {
    match (Text.StripSuffix(e1, ".*"), Text.StripSuffix(e2, ".*")) {
      case (Some(s1), Some(s2)) =>
        assert s1 + "." == cap[..|s1| + 1] && s2 + "." == cap[..|s2| + 1];
        if |s1| <= |s2| {
          assert WildcardCovers(e1, s2);
          assert GrantSet({e1}).CoversEntry(e2);
        } else {
          assert WildcardCovers(e2, s1);
          assert GrantSet({e2}).CoversEntry(e1);
        }
      case (None, _) =>
        assert EntryCovers(e2, e1);
        assert GrantSet({e2}).Allowed(e1);
      case (_, None) =>
        assert EntryCovers(e1, e2);
        assert GrantSet({e1}).Allowed(e2);
    }
  }

  lemma MoreEntriesCoverMore(small: GrantSet, big: GrantSet, entry: string)
    requires small.entries <= big.entries && small.CoversEntry(entry)
    ensures big.CoversEntry(entry)
  {
    CoversEntryMeans(small, entry);
    CoversEntryMeans(big, entry);
  }

  /** `attenuate` allows a capability exactly when both sides do. */
  lemma AttenuateIsIntersection(a: GrantSet, b: GrantSet, cap: string)
    ensures a.Attenuate(b).Allowed(cap) <==> a.Allowed(cap) && b.Allowed(cap)
  {
    hide EntryCovers, GrantSet.CoversEntry;
    var both := a.Attenuate(b);
    if both.Allowed(cap) {
      var e :| e in both.entries && EntryCovers(e, cap);
      if e in a.entries && b.CoversEntry(e) {
        CoversEntryMeans(b, e);
      } else {
        CoversEntryMeans(a, e);
      }
    }
    if a.Allowed(cap) && b.Allowed(cap) {
      var e1 :| e1 in a.entries && EntryCovers(e1, cap);
      var e2 :| e2 in b.entries && EntryCovers(e2, cap);
      NarrowerSurvives(e1, e2, cap);
      if GrantSet({e2}).CoversEntry(e1) {
        MoreEntriesCoverMore(GrantSet({e2}), b, e1);
        assert e1 in both.entries;
      } else {
        MoreEntriesCoverMore(GrantSet({e1}), a, e2);
        assert e2 in both.entries;
      }
    }
  }

  /** The grants in force at the end of an import chain. */
  function Chain(root: GrantSet, imports: seq<GrantSet>): GrantSet
    decreases |imports|
  {
    if imports == [] then root else Chain(root.Attenuate(imports[0]), imports[1..])
  }

  predicate EachAllows(imports: seq<GrantSet>, cap: string) {
    forall g | g in imports :: g.Allowed(cap)
  }

  lemma EachAllowsNext(imports: seq<GrantSet>, cap: string)
    requires imports != []
    ensures EachAllows(imports, cap) <==> imports[0].Allowed(cap) && EachAllows(imports[1..], cap)
  {
    assert imports == [imports[0]] + imports[1..];
  }

  /** However long the chain, the last module may do exactly what every link may. */
  lemma {:induction false} ChainIsIntersection(root: GrantSet, imports: seq<GrantSet>, cap: string)
    ensures Chain(root, imports).Allowed(cap) <==> root.Allowed(cap) && EachAllows(imports, cap)
    decreases |imports|
  {
    hide EachAllows, EntryCovers, GrantSet.Allowed, GrantSet.Attenuate;
    if imports == [] {
      assert EachAllows(imports, cap) by { NoneRefuses(cap); }
    } else {
      ChainIsIntersection(root.Attenuate(imports[0]), imports[1..], cap);
      AttenuateIsIntersection(root, imports[0], cap);
      EachAllowsNext(imports, cap);
    }
  }

  lemma NoneRefuses(cap: string)
    ensures EachAllows([], cap)
  {
  }

  /** Attenuation is the greatest grant below both: anything both sides cover, it covers. */
  lemma AttenuateIsGreatest(a: GrantSet, b: GrantSet, c: GrantSet)
    ensures a.Attenuate(b).Covers(c) <==> a.Covers(c) && b.Covers(c)
  {
    CoversIsInclusion(a, c);
    CoversIsInclusion(b, c);
    CoversIsInclusion(a.Attenuate(b), c);
    forall cap: string ensures a.Attenuate(b).Allowed(cap) <==> a.Allowed(cap) && b.Allowed(cap) {
      AttenuateIsIntersection(a, b, cap);
    }
  }

  // --- what a grant says ---

  /** A set allows the capabilities it lists and, for "data.*", whatever begins with
      "data." -- not "data" itself, nor "database.read". */
  lemma GrantsAllow(g: GrantSet, cap: string)
    ensures g.Allowed(cap) <==>
            cap in g.entries || exists stem, rest :: stem + ".*" in g.entries && cap == stem + "." + rest
  {
    if g.Allowed(cap) {
      var e :| e in g.entries && EntryCovers(e, cap);
      var stem := Text.StripSuffix(e, ".*");
      if stem.Some? {
        assert e == stem.value + ".*" && cap == stem.value + "." + cap[|stem.value| + 1..];
      }
    }
    if cap in g.entries { ListedIsCovered(cap); }
    if stem, rest :| stem + ".*" in g.entries && cap == stem + "." + rest {
      WildcardReads(stem);
      assert stem + "." <= cap;
      assert EntryCovers(stem + ".*", cap);
    }
  }

  lemma ListedIsCovered(cap: string)
    ensures EntryCovers(cap, cap)
  {
    var stem := Text.StripSuffix(cap, ".*");
    if stem.Some? { assert cap == stem.value + ".*" && stem.value + "." == cap[..|cap| - 1]; }
  }

  lemma WildcardReads(stem: string)
    ensures Text.StripSuffix(stem + ".*", ".*") == Some(stem)
  {
    assert (stem + ".*")[..|stem|] == stem && (stem + ".*")[|stem|..] == ".*";
  }
}
