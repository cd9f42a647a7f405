/** Active-instance election as one device runs it: the decision over a registry
    reply, one reconcile, and boot with its retries. */
module Election {
  import opened Options
  import opened Json

  datatype Decision = Active | Standby | Claim

  /** One reconcile's outcome: the gate, and the claim holder the reply named. */
  datatype Verdict = Verdict(active: bool, winner: Option<string>)

  datatype AnyError = AnyError(status: nat, code: string, message: string)

  const PRUNED := "device.pruned"
  const APP_SLUG := "bao"
  const BOOT_ATTEMPTS: nat := 3

  // --- reading a reply ---

  function AsStr(v: Json): Option<string> { if v.Str? then Some(v.s) else None }

  function PeerOf(d: Json): Option<string> {
    match AsStr(Index(d, "id"))
    case Some(p) => Some(p)
    case None => AsStr(Index(d, "peerId"))
  }

  predicate HasApp(d: Json, app: string) {
    match Get(Index(d, "apps"), app) case Some(v) => !v.Null? case None => false
  }

  function WinnerOf(reply: Json, app: string): Option<string> { AsStr(Index(Index(reply, "active"), app)) }

  predicate OtherWithApp(d: Json, selfPeer: string, app: string) {
    PeerOf(d).Some? && PeerOf(d) != Some(selfPeer) && HasApp(d, app)
  }

  predicate RowOf(d: Json, peer: string, app: string) { PeerOf(d) == Some(peer) && HasApp(d, app) }

  function Decide(reply: Json, selfPeer: string, app: string): Decision {
    var devices := GetArr(reply, "devices");
    var winner := WinnerOf(reply, app);
    if winner == Some(selfPeer) then Active
    else if !exists d :: d in devices && OtherWithApp(d, selfPeer, app) then Claim
    else
      match winner
      case Some(w) => if exists d :: d in devices && RowOf(d, w, app) then Standby else Claim
      case None => Claim
  }

  /** The peers that have a row with the app. */
  function Live(devices: seq<Json>, app: string): set<string> {
    set d | d in devices && PeerOf(d).Some? && HasApp(d, app) :: PeerOf(d).value
  }

  /** The rule without the rows: a device is active when it is the winner, stands by
      for another winner that is live, and claims otherwise. */
  function Choose(winner: Option<string>, live: set<string>, selfPeer: string): Decision {
    if winner == Some(selfPeer) then Active
    else if winner.Some? && winner.value in live then Standby
    else Claim
  }

  /** Whether other rows exist never matters beyond that. */
  lemma DecideIsChoose(reply: Json, selfPeer: string, app: string)
    ensures Decide(reply, selfPeer, app) ==
            Choose(WinnerOf(reply, app), Live(GetArr(reply, "devices"), app), selfPeer)
  {
    var devices := GetArr(reply, "devices");
    var winner := WinnerOf(reply, app);
    if winner.Some? && winner.value != selfPeer {
      if d :| d in devices && RowOf(d, winner.value, app) {
        assert OtherWithApp(d, selfPeer, app);
      }
    }
  }

  // --- the replies themselves ---

  /** A device row: its peer id under "id" or "peerId" if it has one, what it says of the
      app, what else `apps` has, and its other members. */
  datatype Row = Row(peer: Option<string>, byId: bool, app: Option<Json>, others: seq<Field>, rest: seq<Field>)
  {
    predicate Runs() { app.Some? && app.value != Null }
  }

  predicate Free(fields: seq<Field>, keys: set<string>) { forall f | f in fields :: f.key !in keys }

  predicate RowShape(r: Row, app: string) { Free(r.rest, {"id", "peerId", "apps"}) && Free(r.others, {app}) }

  function RenderRow(r: Row, app: string): Json {
    Obj(r.rest
        + (match r.peer case Some(p) => [Field(if r.byId then "id" else "peerId", Str(p))] case None => [])
        + [Field("apps", Obj(r.others + (match r.app case Some(v) => [Field(app, v)] case None => [])))])
  }

  function RenderRows(rows: seq<Row>, app: string): seq<Json> {
    seq(|rows|, i requires 0 <= i < |rows| => RenderRow(rows[i], app))
  }

  /** `GET /v1/devices`: the claim holder by app, and the device rows. */
  function RenderReply(winner: Option<string>, holders: seq<Field>, rows: seq<Row>, rest: seq<Field>,
                       app: string): Json {
    Obj(rest
        + [Field("active", Obj(holders + (match winner case Some(w) => [Field(app, Str(w))] case None => []))),
           Field("devices", Arr(RenderRows(rows, app)))])
  }

  ghost predicate ReplyShape(holders: seq<Field>, rows: seq<Row>, rest: seq<Field>, app: string) {
    Free(rest, {"active", "devices"}) && Free(holders, {app}) && forall r | r in rows :: RowShape(r, app)
  }

  lemma {:induction false} LookupPast(front: seq<Field>, tail: seq<Field>, key: string)
    requires Free(front, {key})
    ensures Lookup(front + tail, key) == Lookup(tail, key)
  {
    if front == [] {
      assert front + tail == tail;
    } else {
      assert front[0] in front && (front + tail)[1..] == front[1..] + tail;
      LookupPast(front[1..], tail, key);
    }
  }

  lemma LookupOne(key: string, v: Json, other: string)
    ensures Lookup([Field(key, v)], other) == if other == key then Some(v) else None
  {
    assert [Field(key, v)][1..] == [];
  }

  lemma RowReads(r: Row, app: string)
    requires RowShape(r, app)
    ensures PeerOf(RenderRow(r, app)) == r.peer && (HasApp(RenderRow(r, app), app) <==> r.Runs())
  {
    hide Lookup, Free;
    assert |"id"| == 2 && |"peerId"| == 6 && |"apps"| == 4;
    var who := match r.peer case Some(p) => [Field(if r.byId then "id" else "peerId", Str(p))] case None => [];
    var mine := match r.app case Some(v) => [Field(app, v)] case None => [];
    var apps := Field("apps", Obj(r.others + mine));
    forall key | key in {"id", "peerId", "apps"}
      ensures Lookup(r.rest + who + [apps], key) == Lookup(who + [apps], key)
    {
      assert Free(r.rest, {key}) by { FewerKeys(r.rest, {"id", "peerId", "apps"}, key); }
      assert r.rest + who + [apps] == r.rest + (who + [apps]);
      LookupPast(r.rest, who + [apps], key);
    }
    WhoReads(r.peer, r.byId, apps);
    LookupPast(r.others, mine, app);
    if r.app.Some? { LookupOne(app, r.app.value, app); } else { NothingThere(app); }
    assert Index(RenderRow(r, app), "apps") == Obj(r.others + mine);
  }

  lemma NothingThere(key: string)
    ensures Lookup([], key) == None
  {
  }

  lemma FewerKeys(fields: seq<Field>, keys: set<string>, key: string)
    requires Free(fields, keys) && key in keys
    ensures Free(fields, {key})
  {
  }

  lemma WhoReads(peer: Option<string>, byId: bool, apps: Field)
    requires apps.key == "apps"
    ensures var key := if byId then "id" else "peerId";
            var fields := (match peer case Some(p) => [Field(key, Str(p))] case None => []) + [apps];
            && Lookup(fields, "apps") == Some(apps.value)
            && Lookup(fields, "id") == (if byId && peer.Some? then Some(Str(peer.value)) else None)
            && Lookup(fields, "peerId") == (if !byId && peer.Some? then Some(Str(peer.value)) else None)
  {
    assert |"id"| == 2 && |"peerId"| == 6 && |"apps"| == 4;
    assert [apps][1..] == [];
    if peer.Some? {
      var fields := [Field(if byId then "id" else "peerId", Str(peer.value))] + [apps];
      assert fields[1..] == [apps];
    } else {
      assert [] + [apps] == [apps];
    }
  }

  lemma ReplyReads(winner: Option<string>, holders: seq<Field>, rows: seq<Row>, rest: seq<Field>, app: string)
    requires ReplyShape(holders, rows, rest, app)
    ensures var reply := RenderReply(winner, holders, rows, rest, app);
            WinnerOf(reply, app) == winner && GetArr(reply, "devices") == RenderRows(rows, app)
  {
    hide Lookup, RenderRows, Free;
    assert |"active"| == 6 && |"devices"| == 7;
    var who := match winner case Some(w) => [Field(app, Str(w))] case None => [];
    var active, devices := Field("active", Obj(holders + who)), Field("devices", Arr(RenderRows(rows, app)));
    FewerKeys(rest, {"active", "devices"}, "active");
    FewerKeys(rest, {"active", "devices"}, "devices");
    LookupPast(rest, [active, devices], "active");
    LookupPast(rest, [active, devices], "devices");
    TwoMembers(active, devices);
    LookupPast(holders, who, app);
    if winner.Some? { LookupOne(app, Str(winner.value), app); } else { NothingThere(app); }
    assert Index(RenderReply(winner, holders, rows, rest, app), "active") == Obj(holders + who);
  }

  lemma TwoMembers(a: Field, b: Field)
    requires a.key != b.key
    ensures Lookup([a, b], a.key) == Some(a.value) && Lookup([a, b], b.key) == Some(b.value)
  {
    assert [a, b][1..] == [b];
  }

  /** The decision, on the replies themselves: active for the claim holder; on standby for
      another one that has a row with the app; else a claim -- without a holder, with one
      that has no row, or only one without the app. */
  lemma DecisionOnReplies(winner: Option<string>, holders: seq<Field>, rows: seq<Row>, rest: seq<Field>, app: string,
                          selfPeer: string)
    requires ReplyShape(holders, rows, rest, app)
    ensures var d := Decide(RenderReply(winner, holders, rows, rest, app), selfPeer, app);
            && (d == Active <==> winner == Some(selfPeer))
            && (d == Standby <==>
                winner.Some? && winner.value != selfPeer && exists r | r in rows :: r.peer == winner && r.Runs())
  {
    hide Decide, RenderReply, RenderRow;
    var reply := RenderReply(winner, holders, rows, rest, app);
    DecideIsChoose(reply, selfPeer, app);
    ReplyReads(winner, holders, rows, rest, app);
    LiveRows(rows, app);
  }

  /** The peers of the rows that run the app. */
  lemma LiveRows(rows: seq<Row>, app: string)
    requires forall r | r in rows :: RowShape(r, app)
    ensures forall p :: p in Live(RenderRows(rows, app), app) <==> exists r | r in rows :: r.peer == Some(p) && r.Runs()
  {
    hide RenderRow, PeerOf, HasApp, RowShape;
    var devices := RenderRows(rows, app);
    forall i | 0 <= i < |rows|
      ensures devices[i] in devices && PeerOf(devices[i]) == rows[i].peer
              && (HasApp(devices[i], app) <==> rows[i].Runs())
    {
      assert rows[i] in rows;
      RowReads(rows[i], app);
    }
    forall p ensures p in Live(devices, app) <==> exists r | r in rows :: r.peer == Some(p) && r.Runs() {
      if p in Live(devices, app) {
        var d :| d in devices && PeerOf(d) == Some(p) && HasApp(d, app);
        var i :| 0 <= i < |devices| && devices[i] == d;
        assert rows[i] in rows;
      }
      if r :| r in rows && r.peer == Some(p) && r.Runs() {
        var i :| 0 <= i < |rows| && rows[i] == r;
        assert devices[i] in devices;
      }
    }
  }

  // --- one reconcile ---

  /** What the client gets back, in the order it may ask. */
  datatype Replies = Replies(first: Result<Json, AnyError>, claim: Result<Json, AnyError>, second: Result<Json, AnyError>)

  /** None: the caller keeps the last verdict. */
  method Reconcile(replies: Replies, selfPeer: string, app: string) returns (v: Option<Verdict>)
    ensures v == Reconciled(replies, selfPeer, app)
  {
    if replies.first.Err? {
      return None;
    }
    var reply := replies.first.value;
    var decision := Decide(reply, selfPeer, app);
    if decision == Active {
      return Some(Verdict(true, WinnerOf(reply, app)));
    }
    if decision == Standby {
      return Some(Verdict(false, WinnerOf(reply, app)));
    }
    if replies.claim.Err? {
      if replies.claim.error.code == PRUNED {
        return Some(Verdict(false, WinnerOf(reply, app)));
      }
      return None;
    }
    if replies.second.Err? {
      return None;
    }
    reply := replies.second.value;
    return Some(Verdict(Decide(reply, selfPeer, app) != Standby, WinnerOf(reply, app)));
  }

  /** The reply a settled verdict comes from: the second one when a claim was made. */
  function Last(replies: Replies, selfPeer: string, app: string): Option<Json> {
    match replies.first
    case Err(_) => None
    case Ok(reply) =>
      if Decide(reply, selfPeer, app) != Claim then Some(reply)
      else
        match replies.claim
        case Err(e) => if e.code == PRUNED then Some(reply) else None
        case Ok(_) => match replies.second case Ok(r) => Some(r) case Err(_) => None
  }

  function Reconciled(replies: Replies, selfPeer: string, app: string): Option<Verdict> {
    match Last(replies, selfPeer, app)
    case None => None
    case Some(reply) =>
      var refused := replies.claim.Err? && Decide(reply, selfPeer, app) == Claim;
      Some(Verdict(Decide(reply, selfPeer, app) != Standby && !refused, WinnerOf(reply, app)))
  }

  // --- boot ---

  /** Boot-time election state. */
  datatype Boot = Boot(enabled: bool, verdict: Verdict, selfPeer: Option<string>, pruned: bool)

  const DISABLED := Boot(false, Verdict(true, None), None, false)
  const PRUNED_BOOT := Boot(false, Verdict(false, None), None, true)

  function SelfPeerOf(got: Json, put: Json): Option<string> {
    match AsStr(Index(got, "self"))
    case Some(p) => Some(p)
    case None => PeerOf(put)
  }

  datatype Attempt = Attempt(put: Result<Json, AnyError>, got: Result<Json, AnyError>, replies: Replies)

  datatype Outcome = Retry | Booted(b: Boot)

  function Try(a: Attempt): Outcome {
    match a.put
    case Err(e) =>
      if e.status == 404 then Booted(DISABLED) else if e.code == PRUNED then Booted(PRUNED_BOOT) else Retry
    case Ok(put) =>
      var got := match a.got case Ok(g) => g case Err(_) => Obj([]);
      match SelfPeerOf(got, put)
      case None => Retry
      case Some(peer) =>
        var verdict := match Reconciled(a.replies, peer, APP_SLUG) case Some(v) => v case None => Verdict(true, None);
        Booted(Boot(true, verdict, Some(peer), false))
  }

  /** The first attempt that ends decides; a boot that never gets through stays
      active with election disabled. */
  method BootWith(attempts: seq<Attempt>) returns (b: Boot, lastErr: string)
    requires |attempts| == BOOT_ATTEMPTS
    ensures (exists i | 0 <= i < |attempts| ::
               (forall j | 0 <= j < i :: Try(attempts[j]) == Retry) && Try(attempts[i]) == Booted(b)) ||
            ((forall j | 0 <= j < |attempts| :: Try(attempts[j]) == Retry) && b == DISABLED)
    ensures b.pruned ==> !b.enabled && !b.verdict.active
    ensures !b.enabled && !b.pruned ==> b.verdict.active
  {
    lastErr := "";
    for i := 0 to |attempts|
      invariant forall j | 0 <= j < i :: Try(attempts[j]) == Retry
    {
      var a := attempts[i];
      if a.put.Err? {
        if a.put.error.status == 404 {
          return DISABLED, lastErr;
        }
        if a.put.error.code == PRUNED {
          return PRUNED_BOOT, lastErr;
        }
        lastErr := a.put.error.message;
        continue;
      }
      var got := match a.got case Ok(g) => g case Err(_) => Obj([]);
      var peer := SelfPeerOf(got, a.put.value);
      if peer.None? {
        lastErr := "no self peer id in /v1/devices replies";
        continue;
      }
      var v := Reconcile(a.replies, peer.value, APP_SLUG);
      var verdict := if v.Some? then v.value else Verdict(true, None);
      b := Boot(true, verdict, peer, false);
      assert Try(attempts[i]) == Booted(b);
      return;
    }
    b := DISABLED;
  }

  /** A server without the registry disables election and leaves the device active; a pruned
      device stands by for good; any other refusal is tried again. */
  lemma RefusedBoots(e: AnyError, got: Result<Json, AnyError>, replies: Replies)
    ensures var outcome := Try(Attempt(Err(e), got, replies));
            && (outcome == Booted(Boot(false, Verdict(true, None), None, false)) <==> e.status == 404)
            && (outcome == Booted(Boot(false, Verdict(false, None), None, true)) <==>
                e.status != 404 && e.code == "device.pruned")
            && (outcome == Retry <==> e.status != 404 && e.code != "device.pruned")
  {
  }

  /** A device that gets through takes its peer id from the reply's "self", or else from the
      row it put; its verdict for the app "bao" is its first reconcile's, active if none. */
  lemma AcceptedBoots(put: Json, got: Result<Json, AnyError>, replies: Replies, peer: string)
    requires || (got.Ok? && Get(got.value, "self") == Some(Str(peer)))
             || ((got.Err? || Get(got.value, "self") in {None, Some(Null)}) && Get(put, "id") == Some(Str(peer)))
             || ((got.Err? || Get(got.value, "self") in {None, Some(Null)}) && Get(put, "id") in {None, Some(Null)}
                 && Get(put, "peerId") == Some(Str(peer)))
    ensures var v := Reconciled(replies, peer, "bao");
            Try(Attempt(Ok(put), got, replies)) ==
            Booted(Boot(true, if v.Some? then v.value else Verdict(true, None), Some(peer), false))
  {
    hide Reconciled;
    assert Get(Obj([]), "self") == None;
  }

  // --- a reconcile on the replies ---

  /** Another device holds the claim and has a row with the app. */
  ghost predicate StandsBy(winner: Option<string>, rows: seq<Row>, selfPeer: string) {
    winner.Some? && winner.value != selfPeer && exists r | r in rows :: r.peer == winner && r.Runs()
  }

  /** A reply that cannot be read settles nothing, nor does a claim that fails or cannot be
      verified -- unless the device is pruned, which stands it down. */
  lemma UnreadRepliesSettleNothing(replies: Replies, selfPeer: string, app: string)
    ensures replies.first.Err? ==> Reconciled(replies, selfPeer, app) == None
    ensures replies.first.Ok? && Decide(replies.first.value, selfPeer, app) == Claim
            && replies.claim.Ok? && replies.second.Err? ==>
              Reconciled(replies, selfPeer, app) == None
  {
    hide Decide;
  }

  /** A holder and a device on standby leave it at the first reply; a device that claims goes
      by the second one, and is active there unless that shows another live holder. */
  lemma ReconcilesOnReplies(replies: Replies,
                            winner: Option<string>, holders: seq<Field>, rows: seq<Row>, rest: seq<Field>,
                            winner': Option<string>, holders': seq<Field>, rows': seq<Row>, rest': seq<Field>,
                            app: string, selfPeer: string)
    requires ReplyShape(holders, rows, rest, app) && ReplyShape(holders', rows', rest', app)
    requires replies.first == Ok(RenderReply(winner, holders, rows, rest, app))
    ensures winner == Some(selfPeer) ==> Reconciled(replies, selfPeer, app) == Some(Verdict(true, winner))
    ensures StandsBy(winner, rows, selfPeer) ==> Reconciled(replies, selfPeer, app) == Some(Verdict(false, winner))
    ensures winner != Some(selfPeer) && !StandsBy(winner, rows, selfPeer) && replies.claim.Err? ==>
              Reconciled(replies, selfPeer, app) ==
              if replies.claim.error.code == "device.pruned" then Some(Verdict(false, winner)) else None
    ensures winner != Some(selfPeer) && !StandsBy(winner, rows, selfPeer) && replies.claim.Ok?
            && replies.second == Ok(RenderReply(winner', holders', rows', rest', app)) ==>
              Reconciled(replies, selfPeer, app) == Some(Verdict(!StandsBy(winner', rows', selfPeer), winner'))
  {
    hide Decide, RenderReply, ReplyShape, WinnerOf;
    DecisionOnReplies(winner, holders, rows, rest, app, selfPeer);
    DecisionOnReplies(winner', holders', rows', rest', app, selfPeer);
    ReplyReads(winner, holders, rows, rest, app);
    ReplyReads(winner', holders', rows', rest', app);
  }
}
