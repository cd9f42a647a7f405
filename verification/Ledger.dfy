/** The user-side grant ledger and the trust-tier policy that consults it.
    Sorted capability lists without duplicates are modelled by their sets. */
module Ledger {
  import opened Options
  import opened Caps

  datatype Entry = Entry(caps: set<string>, tier: string, grantedAt: string)

  /** The ledger file: missing, unreadable, or a map by program content hash. */
  datatype File = Absent | Unreadable | Stored(entries: map<string, Entry>)

  datatype Denied =
    | Refused(hash: string, caps: set<string>)
    | UnknownTier(tier: string)
    | LedgerFailure

  /** What one decision produced; `asked` tells whether the user was prompted. */
  datatype Decision = Decision(result: Result<GrantSet, Denied>, asked: bool)

  function Load(file: File): Result<map<string, Entry>, Denied> {
    match file
    case Absent => Ok(map[])
    case Unreadable => Err(LedgerFailure)
    case Stored(entries) => Ok(entries)
  }

  datatype Request = Request(
    hash: string, caps: set<string>, tier: string, answer: bool, ts: string, writable: bool)

  function WriteGrant(file: File, q: Request): (File, Result<GrantSet, Denied>) {
    match Load(file)
    case Err(e) => (file, Err(e))
    case Ok(entries) =>
      if q.writable then
        (Stored(entries[q.hash := Entry(q.caps, q.tier, q.ts)]), Ok(GrantSet(q.caps)))
      else
        (file, Err(LedgerFailure))
  }

  function Ask(file: File, q: Request): (File, Decision) {
    if !q.answer then
      (file, Decision(Err(Refused(q.hash, q.caps)), true))
    else
      var (file', result) := WriteGrant(file, q);
      (file', Decision(result, true))
  }

  function Decide(file: File, q: Request): (File, Decision) {
    if q.tier == "self" || q.tier == "attested" then
      (file, Decision(Ok(GrantSet(q.caps)), false))
    else if q.tier != "unverified" then
      (file, Decision(Err(UnknownTier(q.tier)), false))
    else
      match Load(file)
      case Err(e) => (file, Decision(Err(e), false))
      case Ok(entries) =>
        if q.hash in entries && GrantSet(entries[q.hash].caps).Covers(GrantSet(q.caps)) then
          if entries[q.hash].caps != q.caps then
            var (file', result) := WriteGrant(file, q);
            (file', Decision(result, false))
          else
            (file, Decision(Ok(GrantSet(q.caps)), false))
        else
          Ask(file, q)
  }

  function Revoke(file: File, hash: string, writable: bool): (File, Result<(), Denied>) {
    match Load(file)
    case Err(e) => (file, Err(e))
    case Ok(entries) =>
      if hash !in entries then (file, Ok(()))
      else if writable then (Stored(entries - {hash}), Ok(()))
      else (file, Err(LedgerFailure))
  }

  /** The file-backed object; `writable` on each call is the file system's answer. */
  class GrantLedger {
    var file: File

    constructor ()
      ensures file == Absent
    {
      file := Absent;
    }

    method Grant(q: Request) returns (r: Result<GrantSet, Denied>)
      modifies this
      ensures (file, r) == WriteGrant(old(file), q)
      ensures r.Err? ==> file == old(file)
      ensures r.Ok? ==>
        && r.value == GrantSet(q.caps) && Load(file).Ok?
        && q.hash in Load(file).value && Load(file).value[q.hash] == Entry(q.caps, q.tier, q.ts)
        && Load(file).value - {q.hash} == Load(old(file)).value - {q.hash}
    {
      var data := Load(file);
      match data
      case Err(e) => r := Err(e);
      case Ok(entries) =>
        if q.writable {
          file := Stored(entries[q.hash := Entry(q.caps, q.tier, q.ts)]);
          r := Ok(GrantSet(q.caps));
        } else {
          r := Err(LedgerFailure);
        }
    }

    method RevokeGrant(hash: string, writable: bool) returns (r: Result<(), Denied>)
      modifies this
      ensures (file, r) == Revoke(old(file), hash, writable)
      ensures r.Ok? ==> Load(file).Ok? && hash !in Load(file).value
      ensures r.Err? ==> file == old(file)
    {
      var data := Load(file);
      match data
      case Err(e) => r := Err(e);
      case Ok(entries) =>
        r := Ok(());
        if hash in entries {
          if writable {
            file := Stored(entries - {hash});
          } else {
            r := Err(LedgerFailure);
          }
        }
    }

    method DecideGrant(q: Request) returns (d: Decision)
      modifies this
      ensures (file, d) == Decide(old(file), q)
      ensures d.result.Err? ==> file == old(file)
    {
      var wanted := GrantSet(q.caps);
      if q.tier == "self" || q.tier == "attested" {
        return Decision(Ok(wanted), false);
      }
      if q.tier != "unverified" {
        return Decision(Err(UnknownTier(q.tier)), false);
      }
      var found := Load(file);
      if found.Err? {
        return Decision(Err(found.error), false);
      }
      if q.hash in found.value {
        var existing := found.value[q.hash];
        if GrantSet(existing.caps).Covers(wanted) {
          if existing.caps != q.caps {
            var r := Grant(q);
            return Decision(r, false);
          }
          return Decision(Ok(wanted), false);
        }
      }
      if !q.answer {
        return Decision(Err(Refused(q.hash, q.caps)), true);
      }
      var r := Grant(q);
      d := Decision(r, true);
    }
  }

  // --- whole histories ---

  datatype Event = Deciding(q: Request) | Revoking(hash: string, writable: bool)

  function Apply(file: File, e: Event): File {
    match e
    case Deciding(q) => Decide(file, q).0
    case Revoking(hash, writable) => Revoke(file, hash, writable).0
  }

  /** The ledger after a history that began with no file. */
  function After(events: seq<Event>): File {
    if events == [] then Absent
    else Apply(After(events[..|events| - 1]), events[|events| - 1])
  }

  /** The set the user last approved at a prompt for this program hash, unless
      it was revoked since.  Read off the history alone. */
  function Approved(events: seq<Event>, hash: string): Option<GrantSet> {
    if events == [] then None
    else
      var before := events[..|events| - 1];
      match events[|events| - 1]
      case Deciding(q) =>
        var d := Decide(After(before), q).1;
        if q.hash == hash && d.asked && d.result.Ok? then Some(GrantSet(q.caps))
        else Approved(before, hash)
      case Revoking(h, writable) =>
        if h == hash && Revoke(After(before), h, writable).1.Ok? then None
        else Approved(before, hash)
  }

  /** What the file holds for a hash. */
  function Held(file: File, hash: string): Option<GrantSet> {
    if file.Stored? && hash in file.entries then Some(GrantSet(file.entries[hash].caps)) else None
  }

  lemma InclusionChains(a: GrantSet, b: GrantSet, c: GrantSet)
    requires Includes(a, b) && Includes(b, c)
    ensures Includes(a, c)
  {
  }

  /** Everything on file was approved, at least as broadly, since the last revoke. */
  lemma {:induction false} HeldWasApproved(events: seq<Event>, hash: string)
    requires Held(After(events), hash).Some?
    ensures Approved(events, hash).Some?
    ensures Includes(Approved(events, hash).value, Held(After(events), hash).value)
  {
    var before := events[..|events| - 1];
    match events[|events| - 1]
    case Revoking(h, writable) =>
      HeldWasApproved(before, hash);
    case Deciding(q) =>
      var d := Decide(After(before), q).1;
      if q.hash == hash && d.asked && d.result.Ok? {
      } else {
        HeldWasApproved(before, hash);
        if After(events) != After(before) && q.hash == hash {
          var held := Held(After(before), hash).value;
          CoversIsInclusion(held, GrantSet(q.caps));
          InclusionChains(Approved(before, hash).value, held, GrantSet(q.caps));
        }
      }
  }

  /** An unverified program is granted what it asked, and the ledger holds just that. */
  lemma GrantedIsHeld(file: File, q: Request)
    requires q.tier == "unverified" && Decide(file, q).1.result.Ok?
    ensures Held(Decide(file, q).0, q.hash) == Some(Decide(file, q).1.result.value)
  {
  }

  /** Safety over every history: an unverified program is only ever handed
      authority inside what the user approved for that very hash since its last
      revoke. */
  lemma GrantsStayApproved(events: seq<Event>, q: Request)
    requires q.tier == "unverified"
    requires Decide(After(events), q).1.result.Ok?
    ensures var now := events + [Deciding(q)];
            var granted := Decide(After(events), q).1.result.value;
            Approved(now, q.hash).Some? && Includes(Approved(now, q.hash).value, granted)
  {
    hide Decide, Includes, Approved;
    var now := events + [Deciding(q)];
    assert now[..|now| - 1] == events;
    GrantedIsHeld(After(events), q);
    HeldWasApproved(now, q.hash);
  }

  /** No prompt in `later` granted anything for `hash`. */
  predicate Unprompted(events: seq<Event>, later: seq<Event>, hash: string) {
    forall i | 0 <= i < |later| ::
      later[i].Deciding? && later[i].q.hash == hash ==>
        var d := Decide(After(events + later[..i]), later[i].q).1;
        !(d.asked && d.result.Ok?)
  }

  lemma OneShrinks(file: File, e: Event, hash: string)
    requires e.Deciding? && e.q.hash == hash ==> var d := Decide(file, e.q).1; !(d.asked && d.result.Ok?)
    requires Held(Apply(file, e), hash).Some?
    ensures Held(file, hash).Some? && Includes(Held(file, hash).value, Held(Apply(file, e), hash).value)
  {
    hide Includes, GrantSet.Covers;
    if e.Deciding? && e.q.hash == hash && Apply(file, e) != file {
      CoversIsInclusion(Held(file, hash).value, GrantSet(e.q.caps));
    } else {
      assert Held(Apply(file, e), hash) == Held(file, hash);
      IncludesItself(Held(file, hash).value);
    }
  }

  lemma IncludesItself(a: GrantSet)
    ensures Includes(a, a)
  {
  }

  lemma UnpromptedBefore(events: seq<Event>, later: seq<Event>, hash: string)
    requires Unprompted(events, later, hash) && later != []
    ensures Unprompted(events, later[..|later| - 1], hash)
    ensures var e := later[|later| - 1];
            e.Deciding? && e.q.hash == hash ==>
              var d := Decide(After(events + later[..|later| - 1]), e.q).1; !(d.asked && d.result.Ok?)
  {
    hide Decide, After;
    var n := |later| - 1;
    forall i | 0 <= i < n ensures later[..n][..i] == later[..i] && later[..n][i] == later[i] {}
  }

  /** Between two approvals the authority on file only shrinks. */
  lemma {:induction false} AuthorityOnlyShrinks(events: seq<Event>, later: seq<Event>, hash: string)
    requires Unprompted(events, later, hash)
    requires Held(After(events + later), hash).Some?
    ensures Held(After(events), hash).Some?
    ensures Includes(Held(After(events), hash).value, Held(After(events + later), hash).value)
  {
    hide Decide, Apply, Held, Includes, Unprompted;
    if later == [] {
      assert events + later == events;
      IncludesItself(Held(After(events), hash).value);
    } else {
      var n := |later| - 1;
      var sofar := events + later[..n];
      UnpromptedBefore(events, later, hash);
      AfterOneMore(sofar, later[n]);
      assert events + later == sofar + [later[n]];
      OneShrinks(After(sofar), later[n], hash);
      AuthorityOnlyShrinks(events, later[..n], hash);
      InclusionChains(Held(After(events), hash).value, Held(After(sofar), hash).value, Held(After(events + later), hash).value);
    }
  }

  lemma AfterOneMore(events: seq<Event>, e: Event)
    ensures After(events + [e]) == Apply(After(events), e)
  {
    assert (events + [e])[..|events|] == events;
  }

  // --- the tiers ---

  /** One's own programs and attested ones get what they ask for, unasked and unrecorded; an
      unknown tier gets nothing. */
  lemma TrustedTiers(file: File, q: Request)
    ensures q.tier == "self" || q.tier == "attested" ==>
              Decide(file, q) == (file, Decision(Ok(GrantSet(q.caps)), false))
    ensures q.tier != "self" && q.tier != "attested" && q.tier != "unverified" ==>
              Decide(file, q) == (file, Decision(Err(UnknownTier(q.tier)), false))
  {
  }

  /** An unverified program without an entry that covers what it asks is put to the user: a
      refusal is reported with its hash and what it asked, an approval is written down. */
  lemma UnverifiedIsAsked(file: File, q: Request)
    requires q.tier == "unverified" && !file.Unreadable?
    requires Held(file, q.hash).Some? ==> !Includes(Held(file, q.hash).value, GrantSet(q.caps))
    ensures var (after, d) := Decide(file, q);
            && d.asked
            && (!q.answer ==> after == file && d.result == Err(Refused(q.hash, q.caps)))
            && (q.answer && q.writable ==>
                  && d.result == Ok(GrantSet(q.caps)) && after.Stored? && q.hash in after.entries
                  && after.entries[q.hash] == Entry(q.caps, q.tier, q.ts))
            && (q.answer && !q.writable ==> after == file && d.result == Err(LedgerFailure))
  {
    hide Includes, GrantSet.Covers;
    assert "unverified"[0] == 'u' && "self"[0] == 's' && "attested"[0] == 'a';
    if Held(file, q.hash).Some? { CoversIsInclusion(Held(file, q.hash).value, GrantSet(q.caps)); }
  }

  /** One whose entry covers what it asks is not asked about: it gets just that, and a smaller
      grant replaces the one on file. An unreadable file stops it. */
  lemma UnverifiedIsKnown(file: File, q: Request)
    requires q.tier == "unverified"
    ensures file.Unreadable? ==> Decide(file, q) == (file, Decision(Err(LedgerFailure), false))
    ensures Held(file, q.hash).Some? && Includes(Held(file, q.hash).value, GrantSet(q.caps)) ==>
              var (after, d) := Decide(file, q);
              && !d.asked
              && (Held(file, q.hash).value.entries == q.caps ==> after == file && d.result == Ok(GrantSet(q.caps)))
              && (Held(file, q.hash).value.entries != q.caps && q.writable ==>
                    && d.result == Ok(GrantSet(q.caps)) && after.Stored? && q.hash in after.entries
                    && after.entries[q.hash] == Entry(q.caps, q.tier, q.ts))
              && (Held(file, q.hash).value.entries != q.caps && !q.writable ==>
                    after == file && d.result == Err(LedgerFailure))
  {
    hide Includes, GrantSet.Covers;
    assert "unverified"[0] == 'u' && "self"[0] == 's' && "attested"[0] == 'a';
    if Held(file, q.hash).Some? { CoversIsInclusion(Held(file, q.hash).value, GrantSet(q.caps)); }
  }
}
