/** The election protocol: devices read, claim and verify against one registry, in
    any interleaving.  An accepted claim outranks those before it, so the winner is
    the last one accepted. */
module ElectionRuns {
  import opened Options
  import opened Json
  import opened Election

  type Peer = string

  /** Where a device is in its reconcile. */
  datatype Phase = Idle | Claiming | Verifying

  datatype Device = Device(active: bool, phase: Phase)

  /** `rows`: peers with a row and the app.  A device without a row was pruned, and
      its claims are refused.  `posts` and `settled` are history: the claims accepted
      in this run, and the devices whose last poll since the latest of them ended in
      a settled verdict. */
  datatype State = State(
    rows: set<Peer>,
    winner: Option<Peer>,
    devices: map<Peer, Device>,
    posts: seq<Peer>,
    settled: set<Peer>)

  /** What can happen to device `d`; nothing else touches the registry. */
  datatype Step =
    | Read(d: Peer)
    | ReadFails(d: Peer)
    | ClaimLands(d: Peer)
    | ClaimLandsUnseen(d: Peer) // accepted, but the reply is lost
    | ClaimRefused(d: Peer) // device.pruned
    | ClaimFails(d: Peer)
    | Verify(d: Peer)
    | VerifyFails(d: Peer)

  predicate Enabled(s: State, step: Step) {
    step.d in s.devices &&
    var phase := s.devices[step.d].phase;
    match step
    case Read(_) => phase == Idle
    case ReadFails(_) => phase == Idle
    case ClaimLands(d) => phase == Claiming && d in s.rows
    case ClaimLandsUnseen(d) => phase == Claiming && d in s.rows
    case ClaimRefused(d) => phase == Claiming && d !in s.rows
    case ClaimFails(_) => phase == Claiming
    case Verify(_) => phase == Verifying
    case VerifyFails(_) => phase == Verifying
  }

  function Moved(s: State, d: Peer, device: Device): State {
    s.(devices := s.devices[d := device])
  }

  /** A poll that ends in `active` and is settled. */
  function Settle(s: State, d: Peer, active: bool): State {
    Moved(s, d, Device(active, Idle)).(settled := s.settled + {d})
  }

  function Posted(s: State, d: Peer): State {
    s.(winner := Some(d), posts := s.posts + [d], settled := {})
  }

  function Next(s: State, step: Step): State
    requires Enabled(s, step)
  {
    var d := step.d;
    var was := s.devices[d];
    match step
    case Read(_) =>
      (match Choose(s.winner, s.rows, d)
       case Active => Settle(s, d, true)
       case Standby => Settle(s, d, false)
       case Claim => Moved(s, d, was.(phase := Claiming)))
    case ReadFails(_) => s
    case ClaimLands(_) => Moved(Posted(s, d), d, was.(phase := Verifying))
    case ClaimLandsUnseen(_) => Moved(Posted(s, d), d, was.(phase := Idle))
    case ClaimRefused(_) => Settle(s, d, false)
    case ClaimFails(_) => Moved(s, d, was.(phase := Idle))
    case Verify(_) =>
      (match Choose(s.winner, s.rows, d)
       case Active => Settle(s, d, true)
       case Standby => Settle(s, d, false)
       case Claim => Moved(s, d, Device(true, Idle))) // still unsettled: reads as active
    case VerifyFails(_) => Moved(s, d, was.(phase := Idle))
  }

  ghost predicate CanRun(s: State, steps: seq<Step>)
    decreases |steps|
  {
    steps == [] || (Enabled(s, steps[0]) && CanRun(Next(s, steps[0]), steps[1..]))
  }

  ghost function Run(s: State, steps: seq<Step>): State
    requires CanRun(s, steps)
    decreases |steps|
  {
    if steps == [] then s else Run(Next(s, steps[0]), steps[1..])
  }

  /** A registry that is from now on left alone; the devices may be anywhere in
      their polls, with any verdicts. */
  predicate Quiet(s: State) {
    s.posts == [] && s.settled == {} && s.rows <= s.devices.Keys
  }

  predicate WinnerLives(s: State) { s.winner.Some? && s.winner.value in s.rows }

  ghost predicate Distinct(posts: seq<Peer>) {
    forall i, j :: 0 <= i < j < |posts| ==> posts[i] != posts[j]
  }

  /** What quiet running keeps. */
  ghost predicate Inv(s: State) {
    && s.rows <= s.devices.Keys && s.settled <= s.devices.Keys
    && Distinct(s.posts)
    && (s.posts != [] ==> WinnerLives(s))
    && (forall d | d in s.posts :: d in s.devices && s.devices[d].phase != Claiming)
    && (forall d | d in s.settled :: s.devices[d].phase != Verifying && (s.devices[d].active ==> s.winner == Some(d)))
    && (forall d | d in s.settled && d in s.rows ::
          WinnerLives(s) && s.devices[d].phase == Idle && (s.winner == Some(d) ==> s.devices[d].active))
  }

  predicate Lands(step: Step) { step.ClaimLands? || step.ClaimLandsUnseen? }

  lemma ClaimKeepsInv(s: State, step: Step)
    requires Inv(s) && Enabled(s, step) && Lands(step)
    ensures Inv(Next(s, step))
  {
    var t := Next(s, step);
    assert t.posts == s.posts + [step.d];
  }

  lemma PollKeepsInv(s: State, step: Step)
    requires Inv(s) && Enabled(s, step) && !Lands(step)
    ensures Inv(Next(s, step))
  {
  }

  lemma NextKeepsInv(s: State, step: Step)
    requires Inv(s) && Enabled(s, step)
    ensures Inv(Next(s, step)) && Next(s, step).rows == s.rows && Next(s, step).devices.Keys == s.devices.Keys
  {
    hide Inv;
    if Lands(step) { ClaimKeepsInv(s, step); } else { PollKeepsInv(s, step); }
    assert s.devices.Keys + {step.d} == s.devices.Keys;
  }

  lemma {:induction false} RunKeepsInv(s: State, steps: seq<Step>)
    requires Inv(s) && CanRun(s, steps)
    ensures Inv(Run(s, steps)) && Run(s, steps).rows == s.rows && Run(s, steps).devices.Keys == s.devices.Keys
    decreases |steps|
  {
    if steps != [] {
      NextKeepsInv(s, steps[0]);
      RunKeepsInv(Next(s, steps[0]), steps[1..]);
    }
  }

  /** Once the registry is left alone, each device posts at most one more claim. */
  lemma AtMostOneClaimEach(s: State, steps: seq<Step>)
    requires Quiet(s) && CanRun(s, steps)
    ensures Distinct(Run(s, steps).posts)
    ensures |Run(s, steps).posts| <= |s.rows|
  {
    RunKeepsInv(s, steps);
    PostsAreRows(s, steps);
    DistinctFits(Run(s, steps).posts, s.rows);
  }

  lemma {:induction false} PostsAreRows(s: State, steps: seq<Step>)
    requires CanRun(s, steps) && forall d | d in s.posts :: d in s.rows
    ensures forall d | d in Run(s, steps).posts :: d in s.rows
    decreases |steps|
  {
    if steps != [] { PostsAreRows(Next(s, steps[0]), steps[1..]); }
  }

  lemma {:induction false} DistinctFits(posts: seq<Peer>, rows: set<Peer>)
    requires Distinct(posts) && forall d | d in posts :: d in rows
    ensures |posts| <= |rows|
  {
    if posts != [] {
      var rest := posts[1..];
      forall d | d in rest ensures d in rows - {posts[0]} {
        var i :| 0 <= i < |rest| && rest[i] == d;
        assert posts[i + 1] == d && posts[i + 1] != posts[0];
      }
      DistinctFits(rest, rows - {posts[0]});
    }
  }

  /** Once every device with a row has polled since the last claim, exactly one
      device's verdict is active: the winner's. */
  lemma OneActive(s: State, steps: seq<Step>)
    requires Quiet(s) && s.rows != {} && CanRun(s, steps) && s.rows <= Run(s, steps).settled
    ensures var t := Run(s, steps);
            WinnerLives(t) && t.winner.value in t.settled && t.settled <= t.devices.Keys &&
            forall d | d in t.settled :: t.devices[d].active <==> d == t.winner.value
  {
    RunKeepsInv(s, steps);
    var d :| d in s.rows;
  }

  /** ... and so it stays at every later poll, failed ones included: no claim is
      posted any more, the winner and every settled verdict stand. */
  lemma {:induction false} SettledStays(t: State, later: seq<Step>)
    requires Inv(t) && t.rows != {} && t.rows <= t.settled && CanRun(t, later)
    ensures var u := Run(t, later);
            u.winner == t.winner && u.posts == t.posts && t.settled <= u.settled <= t.devices.Keys == u.devices.Keys &&
            forall d | d in t.settled :: u.devices[d].active == t.devices[d].active
    decreases |later|
  {
    var r :| r in t.rows;
    RunKeepsInv(t, later);
    if later != [] {
      NextKeepsInv(t, later[0]);
      SettledStays(Next(t, later[0]), later[1..]);
    }
  }

  /** The two together, over whole runs. */
  lemma ElectionConverges(s: State, steps: seq<Step>, later: seq<Step>)
    requires Quiet(s) && s.rows != {} && CanRun(s, steps) && s.rows <= Run(s, steps).settled
    requires CanRun(Run(s, steps), later)
    ensures var t, u := Run(s, steps), Run(Run(s, steps), later);
            WinnerLives(t) && u.winner == t.winner && u.posts == t.posts && t.settled <= u.devices.Keys &&
            forall d | d in t.settled :: u.devices[d].active <==> d == t.winner.value
  {
    OneActive(s, steps);
    RunKeepsInv(s, steps);
    SettledStays(Run(s, steps), later);
  }

  // --- it does get there ---

  /** One undisturbed poll of device d. */
  ghost function Poll(s: State, d: Peer): seq<Step> {
    if Choose(s.winner, s.rows, d) == Claim then [Read(d), ClaimLands(d), Verify(d)] else [Read(d)]
  }

  /** The reply lists that claim holder and, among whatever other rows, exactly those live
      ones. */
  ghost predicate Names(reply: Json, app: string, winner: Option<Peer>, live: set<Peer>) {
    exists holders: seq<Field>, rows: seq<Row>, rest: seq<Field> ::
      && ReplyShape(holders, rows, rest, app) && reply == RenderReply(winner, holders, rows, rest, app)
      && forall p :: p in live <==> exists r | r in rows :: r.peer == Some(p) && r.Runs()
  }

  lemma NamesReads(reply: Json, app: string, winner: Option<Peer>, live: set<Peer>)
    requires Names(reply, app, winner, live)
    ensures WinnerOf(reply, app) == winner && Live(GetArr(reply, "devices"), app) == live
  {
    hide RenderReply, ReplyShape, WinnerOf, Live;
    var holders: seq<Field>, rows: seq<Row>, rest: seq<Field> :| ReplyShape(holders, rows, rest, app) && reply == RenderReply(winner, holders, rows, rest, app)
                               && forall p :: p in live <==> exists r | r in rows :: r.peer == Some(p) && r.Runs();
    ReplyReads(winner, holders, rows, rest, app);
    assert forall r | r in rows :: RowShape(r, app) by { ShapedRows(holders, rows, rest, app); }
    LiveRows(rows, app);
  }

  lemma ShapedRows(holders: seq<Field>, rows: seq<Row>, rest: seq<Field>, app: string)
    requires ReplyShape(holders, rows, rest, app)
    ensures forall r | r in rows :: RowShape(r, app)
  {
  }

  /** The replies of one poll show the registry as it is, before and after the claim;
      a claim by a pruned device is refused. */
  ghost predicate Shows(s: State, d: Peer, replies: Replies, app: string) {
    && replies.first.Ok? && Names(replies.first.value, app, s.winner, s.rows)
    && (if d in s.rows then replies.claim.Ok? else replies.claim.Err? && replies.claim.error.code == "device.pruned")
    && replies.second.Ok? && Names(replies.second.value, app, Some(d), s.rows)
  }

  /** The steps of one undisturbed poll, refused claims included. */
  function WholePoll(s: State, d: Peer): seq<Step> {
    if Choose(s.winner, s.rows, d) != Claim then [Read(d)]
    else if d in s.rows then [Read(d), ClaimLands(d), Verify(d)]
    else [Read(d), ClaimRefused(d)]
  }

  lemma WholePollRuns(s: State, d: Peer)
    requires d in s.devices && s.devices[d].phase == Idle
    ensures CanRun(s, WholePoll(s, d)) && d in Run(s, WholePoll(s, d)).devices
    ensures Run(s, WholePoll(s, d)).devices[d].active <==>
            s.winner == Some(d) || (Choose(s.winner, s.rows, d) == Claim && d in s.rows)
  {
    var one := Next(s, Read(d));
    if Choose(s.winner, s.rows, d) != Claim {
      assert [Read(d)][1..] == [];
      assert CanRun(one, []) && Run(s, [Read(d)]) == Run(one, []) == one;
    } else if d in s.rows {
      RunThree(s, Read(d), ClaimLands(d), Verify(d));
    } else {
      var two := Next(one, ClaimRefused(d));
      assert [Read(d), ClaimRefused(d)][1..] == [ClaimRefused(d)] && [ClaimRefused(d)][1..] == [];
      assert CanRun(two, []) && CanRun(one, [ClaimRefused(d)]);
      assert Run(s, [Read(d), ClaimRefused(d)]) == Run(one, [ClaimRefused(d)]) == Run(two, []) == two;
    }
  }

  /** One undisturbed poll through the protocol's steps ends in the verdict that
      `Reconcile` computes from such replies. */
  lemma PollIsReconcile(s: State, d: Peer, replies: Replies, app: string)
    requires d in s.devices && s.devices[d].phase == Idle && Shows(s, d, replies, app)
    ensures CanRun(s, WholePoll(s, d)) && d in Run(s, WholePoll(s, d)).devices
    ensures Reconciled(replies, d, app) ==
            Some(Verdict(Run(s, WholePoll(s, d)).devices[d].active,
                         if d in s.rows && Choose(s.winner, s.rows, d) == Claim then Some(d) else s.winner))
  {
    hide Run, CanRun, Next, Decide, WholePoll, Names, WinnerOf, Live;
    WholePollRuns(s, d);
    NamesReads(replies.first.value, app, s.winner, s.rows);
    NamesReads(replies.second.value, app, Some(d), s.rows);
    DecideIsChoose(replies.first.value, d, app);
    DecideIsChoose(replies.second.value, d, app);
  }

  ghost predicate AllIdle(s: State) { forall d | d in s.devices :: s.devices[d].phase == Idle }

  lemma PollSettles(s: State, d: Peer)
    requires Inv(s) && AllIdle(s) && d in s.rows
    ensures CanRun(s, Poll(s, d))
    ensures var t := Run(s, Poll(s, d));
            Inv(t) && AllIdle(t) && t.rows == s.rows && t.devices.Keys == s.devices.Keys &&
            d in t.settled && WinnerLives(t) && (WinnerLives(s) ==> s.settled <= t.settled)
  {
    NextKeepsInv(s, Read(d));
    var one := Next(s, Read(d));
    if Choose(s.winner, s.rows, d) == Claim {
      NextKeepsInv(one, ClaimLands(d));
      var two := Next(one, ClaimLands(d));
      NextKeepsInv(two, Verify(d));
      RunThree(s, Read(d), ClaimLands(d), Verify(d));
    } else {
      assert [Read(d)][1..] == [];
      assert Run(one, []) == one;
    }
  }

  lemma RunThree(s: State, a: Step, b: Step, c: Step)
    requires Enabled(s, a) && Enabled(Next(s, a), b) && Enabled(Next(Next(s, a), b), c)
    ensures CanRun(s, [a, b, c])
    ensures Run(s, [a, b, c]) == Next(Next(Next(s, a), b), c)
  {
    var two, three := Next(s, a), Next(Next(s, a), b);
    assert [a, b, c][1..] == [b, c] && [b, c][1..] == [c] && [c][1..] == [];
    assert CanRun(Next(three, c), []) && CanRun(three, [c]) && CanRun(two, [b, c]);
    assert Run(s, [a, b, c]) == Run(two, [b, c]) == Run(three, [c]) == Run(Next(three, c), []);
  }

  ghost function Round(s: State, ds: seq<Peer>): State
    requires Inv(s) && AllIdle(s) && forall d | d in ds :: d in s.rows
    ensures Round(s, ds).rows == s.rows
    decreases |ds|
  {
    if ds == [] then s
    else
      PollSettles(s, ds[0]);
      Round(Run(s, Poll(s, ds[0])), ds[1..])
  }

  lemma {:induction false} RoundKeepsSettled(s: State, ds: seq<Peer>)
    requires Inv(s) && AllIdle(s) && WinnerLives(s) && forall d | d in ds :: d in s.rows
    ensures s.settled <= Round(s, ds).settled
    ensures forall d | d in ds :: d in Round(s, ds).settled
    decreases |ds|
  {
    if ds != [] {
      PollSettles(s, ds[0]);
      RoundKeepsSettled(Run(s, Poll(s, ds[0])), ds[1..]);
    }
  }

  /** One round of undisturbed polls settles every device, in whatever order they poll. */
  lemma OneRoundSettles(s: State, ds: seq<Peer>)
    requires Quiet(s) && AllIdle(s) && forall d :: d in ds <==> d in s.rows
    ensures s.rows <= Round(s, ds).settled
  {
    if ds != [] {
      PollSettles(s, ds[0]);
      RoundKeepsSettled(Run(s, Poll(s, ds[0])), ds[1..]);
    }
  }

  /** Without the last condition there is no safety in between: two devices that both
      read an empty registry are both active at once. */
  lemma TwoActivesCanCoexist(a: Peer, b: Peer)
    requires a != b
    ensures var s := State({a, b}, None, map[a := Device(false, Idle), b := Device(false, Idle)], [], {});
            var steps := [Read(a), Read(b), ClaimLands(a), Verify(a), ClaimLands(b), Verify(b)];
            Quiet(s) && CanRun(s, steps) && {a, b} <= Run(s, steps).devices.Keys &&
            Run(s, steps).devices[a].active && Run(s, steps).devices[b].active
  {
    var s := State({a, b}, None, map[a := Device(false, Idle), b := Device(false, Idle)], [], {});
    var s1 := Next(s, Read(a));
    var s2 := Next(s1, Read(b));
    var s3 := Next(s2, ClaimLands(a));
    RunThree(s, Read(a), Read(b), ClaimLands(a));
    RunThree(s3, Verify(a), ClaimLands(b), Verify(b));
    var first, second := [Read(a), Read(b), ClaimLands(a)], [Verify(a), ClaimLands(b), Verify(b)];
    RunBoth(s, first, second);
    assert first + second == [Read(a), Read(b), ClaimLands(a), Verify(a), ClaimLands(b), Verify(b)];
  }

  lemma {:induction false} RunBoth(s: State, first: seq<Step>, second: seq<Step>)
    requires CanRun(s, first) && CanRun(Run(s, first), second)
    ensures CanRun(s, first + second) && Run(s, first + second) == Run(Run(s, first), second)
    decreases |first|
  {
    if first == [] {
      assert first + second == second;
    } else {
      assert (first + second)[1..] == first[1..] + second;
      RunBoth(Next(s, first[0]), first[1..], second);
    }
  }
}
