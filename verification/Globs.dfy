/** Filter globs of a mock spec: `*` matches any run of characters, everything
    else is literal. */
module Globs {
  import opened Options

  /** What a glob means. */
  predicate Matches(p: string, s: string)
    decreases |p|
  {
    if p == "" then s == ""
    else if p[0] == '*' then exists k | 0 <= k <= |s| :: Matches(p[1..], s[k..])
    else s != "" && p[0] == s[0] && Matches(p[1..], s[1..])
  }

  /** `p` matches some suffix of `s` starting at `from` or later. */
  ghost predicate MatchesFrom(p: string, s: string, from: nat) {
    exists k :: from <= k <= |s| && Matches(p, s[k..])
  }

  lemma {:induction false} LiteralPrefix(lit: string, q: string, s: string)
    requires '*' !in lit
    ensures Matches(lit + q, s) <==> lit <= s && Matches(q, s[|lit|..])
  {
    if lit == "" {
      assert lit + q == q && s[|lit|..] == s;
    } else {
      assert (lit + q)[1..] == lit[1..] + q;
      if s != "" && lit[0] == s[0] {
        LiteralPrefix(lit[1..], q, s[1..]);
        assert lit <= s <==> lit[1..] <= s[1..];
        if lit <= s { assert s[1..][|lit[1..]|..] == s[|lit|..]; }
      }
    }
  }

  /** A `*` right where the match stands lets the rest start anywhere later. */
  lemma StarHere(p: string, s: string, at: nat)
    requires p != "" && p[0] == '*' && at <= |s|
    ensures Matches(p, s[at..]) <==> MatchesFrom(p[1..], s, at)
  {
    forall k | at <= k <= |s| ensures s[k..] == s[at..][k - at..] {}
    if Matches(p, s[at..]) {
      var j :| 0 <= j <= |s[at..]| && Matches(p[1..], s[at..][j..]);
      assert s[at..][j..] == s[at + j..];
    }
    if MatchesFrom(p[1..], s, at) {
      var k :| at <= k <= |s| && Matches(p[1..], s[k..]);
      assert Matches(p[1..], s[at..][k - at..]);
    }
  }

  /** Greedy commitment: once the literal between two stars has matched at its
      first place, nothing is lost by keeping that place. */
  lemma SecondStar(lit: string, p: string, s: string, mark: nat)
    requires '*' !in lit && p != "" && p[0] == '*'
    requires mark + |lit| <= |s| && s[mark..mark + |lit|] == lit
    ensures MatchesFrom(lit + p, s, mark) <==> MatchesFrom(p[1..], s, mark + |lit|)
  {
    if MatchesFrom(lit + p, s, mark) {
      var k :| mark <= k <= |s| && Matches(lit + p, s[k..]);
      LiteralPrefix(lit, p, s[k..]);
      assert s[k..][|lit|..] == s[k + |lit|..];
      StarHere(p, s, k + |lit|);
    }
    if MatchesFrom(p[1..], s, mark + |lit|) {
      StarHere(p, s, mark + |lit|);
      LiteralPrefix(lit, p, s[mark..]);
      assert s[mark..][|lit|..] == s[mark + |lit|..];
    }
  }

  /** The literal run cannot stand at `mark`, so the star swallows one more. */
  lemma Retry(lit: string, q: string, s: string, mark: nat)
    requires '*' !in lit && mark <= |s|
    requires !(lit <= s[mark..] && Matches(q, s[mark + |lit|..]))
    ensures MatchesFrom(lit + q, s, mark) <==> MatchesFrom(lit + q, s, mark + 1)
  {
    LiteralPrefix(lit, q, s[mark..]);
    if lit <= s[mark..] { assert s[mark..][|lit|..] == s[mark + |lit|..]; }
  }

  /** Only stars match the empty rest. */
  lemma {:induction false} EmptyRest(p: string)
    ensures Matches(p, "") <==> forall i :: 0 <= i < |p| ==> p[i] == '*'
  {
    if p != "" {
      EmptyRest(p[1..]);
      assert ""[0..] == "";
      if p[0] == '*' {
        assert Matches(p, "") <==> Matches(p[1..], "");
        assert (forall i :: 0 <= i < |p| ==> p[i] == '*') <==>
               (forall i :: 0 <= i < |p[1..]| ==> p[1..][i] == '*') by {
          if forall i :: 0 <= i < |p[1..]| ==> p[1..][i] == '*' {
            forall i | 0 <= i < |p| ensures p[i] == '*' {
              if i > 0 { assert p[i] == p[1..][i - 1]; }
            }
          }
        }
      }
    }
  }

  /** When the text is used up inside the literal, only the first place counts. */
  lemma TextUsedUp(lit: string, q: string, s: string, mark: nat)
    requires '*' !in lit && mark + |lit| == |s| && s[mark..] == lit
    ensures MatchesFrom(lit + q, s, mark) <==> Matches(q, "")
  {
    LiteralPrefix(lit, q, s[mark..]);
    assert s[mark..][|lit|..] == "";
    forall k | mark < k <= |s| ensures !Matches(lit + q, s[k..]) || Matches(q, "") {
      LiteralPrefix(lit, q, s[k..]);
    }
  }

  /** What the matcher knows at (pi, ti): with no star behind it the rest must
      match from here; with a star behind it, the literal since that star stands
      at `mark`, and the pattern after the star may start there or later. */
  ghost predicate Knows(p: string, t: string, pi: nat, ti: nat, star: Option<nat>, mark: nat) {
    && pi <= |p| && mark <= ti <= |t|
    && match star
       case None => mark == 0 && (Matches(p, t) <==> Matches(p[pi..], t[ti..]))
       case Some(sp) =>
         && sp < pi && p[sp + 1..pi] == t[mark..ti] && '*' !in p[sp + 1..pi]
         && (Matches(p, t) <==> MatchesFrom(p[sp + 1..], t, mark))
  }

  lemma TakeStar(p: string, t: string, pi: nat, ti: nat, star: Option<nat>, mark: nat)
    requires Knows(p, t, pi, ti, star, mark) && pi < |p| && p[pi] == '*'
    ensures Knows(p, t, pi + 1, ti, Some(pi), ti)
  {
    assert p[pi..][1..] == p[pi + 1..];
    match star
    case None => StarHere(p[pi..], t, ti);
    case Some(sp) =>
      assert p[sp + 1..] == p[sp + 1..pi] + p[pi..];
      assert |p[sp + 1..pi]| == |t[mark..ti]|;
      SecondStar(p[sp + 1..pi], p[pi..], t, mark);
  }

  lemma TakeLiteral(p: string, t: string, pi: nat, ti: nat, star: Option<nat>, mark: nat)
    requires Knows(p, t, pi, ti, star, mark) && pi < |p| && ti < |t|
    requires p[pi] != '*' && p[pi] == t[ti]
    ensures Knows(p, t, pi + 1, ti + 1, star, mark)
  {
    match star
    case None =>
      assert p[pi..][1..] == p[pi + 1..] && t[ti..][1..] == t[ti + 1..];
    case Some(sp) =>
      assert p[sp + 1..pi + 1] == p[sp + 1..pi] + [p[pi]];
      assert t[mark..ti + 1] == t[mark..ti] + [t[ti]];
  }

  lemma BackToStar(p: string, t: string, pi: nat, ti: nat, sp: nat, mark: nat)
    requires Knows(p, t, pi, ti, Some(sp), mark) && ti < |t|
    requires pi < |p| ==> p[pi] != '*' && p[pi] != t[ti]
    ensures Knows(p, t, sp + 1, mark + 1, Some(sp), mark + 1)
  {
    var lit := p[sp + 1..pi];
    assert p[sp + 1..] == lit + p[pi..];
    assert |lit| == |t[mark..ti]|;
    assert !Matches(p[pi..], t[ti..]);
    Retry(lit, p[pi..], t, mark);
  }

  lemma TextDone(p: string, t: string, pi: nat, star: Option<nat>, mark: nat)
    requires Knows(p, t, pi, |t|, star, mark)
    ensures Matches(p, t) <==> forall i :: pi <= i < |p| ==> p[i] == '*'
  {
    match star {
      case None => assert t[|t|..] == "";
      case Some(sp) =>
        assert p[sp + 1..] == p[sp + 1..pi] + p[pi..];
        assert t[mark..|t|] == t[mark..];
        TextUsedUp(p[sp + 1..pi], p[pi..], t, mark);
    }
    EmptyRest(p[pi..]);
    assert forall i :: pi <= i < |p| ==> p[i] == p[pi..][i - pi];
  }

  /** The runtime's matcher: one pass that backtracks to the last star only. */
  method GlobMatch(p: string, t: string) returns (matched: bool)
    ensures matched <==> Matches(p, t)
  {
    var pi: nat, ti: nat := 0, 0;
    var star: Option<nat>, mark: nat := None, 0;
    assert p[0..] == p && t[0..] == t;
    while ti < |t|
      invariant Knows(p, t, pi, ti, star, mark)
      decreases |t| - mark, |p| - pi
    {
      if pi < |p| && p[pi] == '*' {
        TakeStar(p, t, pi, ti, star, mark);
        star, mark := Some(pi), ti;
        pi := pi + 1;
      } else if pi < |p| && p[pi] == t[ti] {
        TakeLiteral(p, t, pi, ti, star, mark);
        pi, ti := pi + 1, ti + 1;
      } else if star.Some? {
        BackToStar(p, t, pi, ti, star.value, mark);
        pi := star.value + 1;
        mark := mark + 1;
        ti := mark;
      } else {
        return false;
      }
    }
    TextDone(p, t, pi, star, mark);
    ghost var rest := pi;
    while pi < |p| && p[pi] == '*'
      invariant rest <= pi <= |p|
      invariant forall i :: rest <= i < pi ==> p[i] == '*'
    {
      pi := pi + 1;
    }
    matched := pi == |p|;
  }
}
