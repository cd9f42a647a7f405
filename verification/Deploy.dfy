/** The hash-gated publisher: a deploy is a sequence of writes to a space, and may be
    cut short after any of them. */
module Deploy {
  import opened Options
  import opened Json
  import opened Canonical
  import opened Fingerprint

  // --- the write guard of the client ---

  /** NULs become U+FFFD in every string value; member names are left alone. */
  function Clean(s: string): (r: string)
    ensures |r| == |s|
  {
    if s == "" then "" else [if s[0] == '\0' then '\U{FFFD}' else s[0]] + Clean(s[1..])
  }

  function CleanValue(v: Json): Json
    decreases Size(v), 0
  {
    match v
    case Str(s) => Str(Clean(s))
    case Arr(items) => Arr(CleanItems(items))
    case Obj(fields) => Obj(CleanFields(fields))
    case _ => v
  }

  function CleanItems(items: seq<Json>): (r: seq<Json>)
    ensures |r| == |items|
    decreases SizeItems(items), 1
  {
    if items == [] then [] else [CleanValue(items[0])] + CleanItems(items[1..])
  }

  function CleanFields(fields: seq<Field>): (r: seq<Field>)
    ensures |r| == |fields|
    decreases SizeFields(fields), 1
  {
    if fields == [] then []
    else [Field(fields[0].key, CleanValue(fields[0].value))] + CleanFields(fields[1..])
  }

  function CleanContent(c: Content): Content {
    Content(Clean(c.code), Clean(c.summary), c.anyTool, Clean(c.category), CleanValue(c.manifest))
  }

  lemma {:induction false} CleanRemovesNuls(s: string)
    ensures NulFree(Clean(s))
    ensures Clean(s) == s <==> NulFree(s)
  {
    if s != "" {
      CleanRemovesNuls(s[1..]);
      assert s == [s[0]] + s[1..];
      assert NulFree(s) <==> s[0] != '\0' && NulFree(s[1..]);
      assert Clean(s)[1..] == Clean(s[1..]) && s[1..] == s[1..];
    }
  }

  lemma {:induction false} CleanKeepsPrintable(v: Json)
    requires Printable(v)
    ensures Printable(CleanValue(v))
    ensures Truthy(CleanValue(v)) <==> Truthy(v)
    ensures !Truthy(v) ==> CleanValue(v) == v
    ensures CleanValue(CleanValue(v)) == CleanValue(v)
    decreases Size(v), 0
  {
    match v
    case Str(s) =>
      CleanRemovesNuls(s);
      CleanRemovesNuls(Clean(s));
    case Arr(items) => CleanKeepsItems(items);
    case Obj(fields) => CleanKeepsFields(fields);
    case _ =>
  }

  lemma {:induction false} CleanKeepsItems(items: seq<Json>)
    requires PrintableItems(items)
    ensures PrintableItems(CleanItems(items))
    ensures CleanItems(CleanItems(items)) == CleanItems(items)
    decreases SizeItems(items), 1
  {
    if items != [] {
      CleanKeepsPrintable(items[0]);
      CleanKeepsItems(items[1..]);
      assert CleanItems(items)[1..] == CleanItems(items[1..]);
    }
  }

  lemma {:induction false} CleanKeepsFields(fields: seq<Field>)
    requires PrintableFields(fields)
    ensures PrintableFields(CleanFields(fields))
    ensures CleanFields(CleanFields(fields)) == CleanFields(fields)
    decreases SizeFields(fields), 1
  {
    if fields != [] {
      CleanKeepsPrintable(fields[0].value);
      CleanKeepsFields(fields[1..]);
      assert CleanFields(fields)[1..] == CleanFields(fields[1..]);
    }
  }

  // --- a space of programs ---

  datatype Key = Key(name: string, version: string)

  /** A program source with the values scanned out of it; `valid` is what
      `validate` says. */
  datatype Program = Program(key: Key, content: Content, credentials: string, valid: bool)

  /** A program object with its two datasets. */
  datatype Entry = Entry(summary: string, anyTool: bool, category: string, credentials: string,
                         code: Option<string>, manifest: Option<Json>)

  type Space = map<Key, Entry>

  function Place(p: Program): Key { Key(Clean(p.key.name), Clean(p.key.version)) }

  /** What the in-space fingerprint is made of; None when there is no source. */
  function InSpace(e: Entry): Option<Content> {
    match e.code
    case None => None
    case Some(code) =>
      Some(Content(code, e.summary, e.anyTool, e.category, match e.manifest case Some(m) => m case None => Obj([])))
  }

  datatype Status = Created | Updated | Unchanged
  datatype Refusal = Invalid | FrozenVersion
  datatype Write = Create | SetProperties | PutSource | PutManifest | ClearManifest

  function Blank(p: Program): Entry {
    Entry(Clean(p.content.summary), p.content.anyTool, Clean(p.content.category), Clean(p.credentials), None, None)
  }

  function Apply(space: Space, p: Program, w: Write): Space {
    var k := Place(p);
    if w.Create? then space[k := Blank(p)]
    else if k !in space then space
    else
      var e := space[k];
      match w
      case SetProperties => space[k := Blank(p).(code := e.code, manifest := e.manifest)]
      case PutSource => space[k := e.(code := Some(Clean(p.content.code)))]
      case PutManifest => space[k := e.(manifest := Some(CleanValue(p.content.manifest)))]
      case ClearManifest => space[k := e.(manifest := None)]
      case Create => space
  }

  function ApplyAll(space: Space, p: Program, ws: seq<Write>): Space
    decreases |ws|
  {
    if ws == [] then space else ApplyAll(Apply(space, p, ws[0]), p, ws[1..])
  }

  /** The gate: nothing to do, refused, or how the writes begin. */
  function Gate(space: Space, p: Program, frozen: bool): Result<Status, Refusal> {
    if !p.valid then Err(Invalid)
    else if Place(p) !in space then Ok(Created)
    else
      match InSpace(space[Place(p)])
      case Some(c) =>
        if Preimage(c) == Preimage(p.content) then Ok(Unchanged) else if frozen then Err(FrozenVersion) else Ok(Updated)
      case None => if frozen then Err(FrozenVersion) else Ok(Updated)
  }

  function Writes(space: Space, p: Program, frozen: bool): seq<Write> {
    match Gate(space, p, frozen)
    case Ok(Created) => [Create, PutSource] + (if Truthy(p.content.manifest) then [PutManifest] else [])
    case Ok(Updated) =>
      [SetProperties, PutSource] +
      (if Truthy(p.content.manifest) then [PutManifest]
       else if space[Place(p)].manifest.Some? then [ClearManifest]
       else [])
    case _ => []
  }

  /** The space a whole deploy leaves. */
  function Deployed(space: Space, p: Program, frozen: bool): Space {
    ApplyAll(space, p, Writes(space, p, frozen))
  }

  /** The space a deploy leaves when it is cut after `cut` writes. */
  function Cutoff(space: Space, p: Program, frozen: bool, cut: nat): Space {
    var ws := Writes(space, p, frozen);
    ApplyAll(space, p, if cut < |ws| then ws[..cut] else ws)
  }

  // --- the publisher as it runs ---

  class Store {
    var programs: Space

    constructor ()
      ensures programs == map[]
    {
      programs := map[];
    }

    method Do(p: Program, w: Write)
      modifies this
      ensures programs == Apply(old(programs), p, w)
    {
      programs := Apply(programs, p, w);
    }

    method DeployOne(p: Program, frozen: bool) returns (r: Result<Status, Refusal>)
      modifies this
      ensures r == Gate(old(programs), p, frozen)
      ensures programs == Deployed(old(programs), p, frozen)
    {
      hide Apply, Preimage, Truthy;
      if !p.valid {
        return Err(Invalid);
      }
      var k := Place(p);
      if k in programs {
        var there := InSpace(programs[k]);
        if there.Some? && Preimage(there.value) == Preimage(p.content) {
          return Ok(Unchanged);
        }
        if frozen {
          return Err(FrozenVersion);
        }
        r := Ok(Updated);
      } else {
        r := Ok(Created);
      }
      ghost var ws := Writes(programs, p, frozen);
      var stale := k in programs && programs[k].manifest.Some?;
      FirstTwo(programs, p, ws);
      Do(p, if r == Ok(Created) then Create else SetProperties);
      Do(p, PutSource);
      if Truthy(p.content.manifest) {
        assert ws[2..] == [PutManifest];
        Last(programs, p, PutManifest);
        Do(p, PutManifest);
      } else if stale {
        assert ws[2..] == [ClearManifest];
        Last(programs, p, ClearManifest);
        Do(p, ClearManifest);
      } else {
        assert ws[2..] == [];
      }
    }
  }

  lemma Last(space: Space, p: Program, w: Write)
    ensures ApplyAll(space, p, [w]) == Apply(space, p, w)
  {
    assert [w][1..] == [];
  }

  // --- histories with crashes ---

  datatype Event = Event(p: Program, frozen: bool, cut: nat)

  /** Numbers are printed tokens, and a declared category is one plain word. */
  predicate Proper(p: Program) { Printable(p.content.manifest) && NulFree(p.content.category) }

  function After(space: Space, events: seq<Event>): Space
    decreases |events|
  {
    if events == [] then space
    else After(Cutoff(space, events[0].p, events[0].frozen, events[0].cut), events[1..])
  }

  predicate Settled(manifest: Json) {
    Printable(manifest) && Truthy(manifest) && CleanValue(manifest) == manifest
  }

  predicate SoundEntry(e: Entry) {
    NulFree(e.summary) && NulFree(e.category) &&
    (e.code.Some? ==> NulFree(e.code.value)) &&
    (e.manifest.Some? ==> Settled(e.manifest.value))
  }

  ghost predicate Sound(space: Space) { forall k | k in space :: SoundEntry(space[k]) }

  predicate Manifests(w: Write, p: Program) { w.PutManifest? ==> Truthy(p.content.manifest) }

  lemma ApplyKeepsSound(space: Space, p: Program, w: Write)
    requires Sound(space) && Proper(p) && Manifests(w, p)
    ensures Sound(Apply(space, p, w))
  {
    hide Truthy, Printable, CleanValue, NulFree;
    CleanRemovesNuls(p.content.summary);
    CleanRemovesNuls(p.content.category);
    CleanRemovesNuls(p.content.code);
    CleanKeepsPrintable(p.content.manifest);
  }

  lemma {:induction false} ApplyAllKeepsSound(space: Space, p: Program, ws: seq<Write>)
    requires Sound(space) && Proper(p) && forall w | w in ws :: Manifests(w, p)
    ensures Sound(ApplyAll(space, p, ws))
    decreases |ws|
  {
    if ws != [] {
      ApplyKeepsSound(space, p, ws[0]);
      ApplyAllKeepsSound(Apply(space, p, ws[0]), p, ws[1..]);
    }
  }

  /** Whatever deploys were cut wherever, a space holds no NUL and no falsy manifest. */
  lemma {:induction false} HistoriesKeepSound(space: Space, events: seq<Event>)
    requires Sound(space) && forall e | e in events :: Proper(e.p)
    ensures Sound(After(space, events))
    decreases |events|
  {
    if events != [] {
      var e := events[0];
      ApplyAllKeepsSound(space, e.p, Writes(space, e.p, e.frozen));
      var ws := Writes(space, e.p, e.frozen);
      if e.cut < |ws| { ApplyAllKeepsSound(space, e.p, ws[..e.cut]); }
      HistoriesKeepSound(Cutoff(space, e.p, e.frozen, e.cut), events[1..]);
    }
  }

  // --- convergence ---

  /** The entry a deploy of p aims at, its credentials aside. */
  predicate Holds(e: Entry, p: Program) {
    e.(credentials := "") ==
    Entry(Clean(p.content.summary), p.content.anyTool, Clean(p.content.category), "", Some(Clean(p.content.code)),
          if Truthy(p.content.manifest) then Some(CleanValue(p.content.manifest)) else None)
  }

  lemma FirstTwo(space: Space, p: Program, ws: seq<Write>)
    requires |ws| >= 2
    ensures ApplyAll(space, p, ws) == ApplyAll(Apply(Apply(space, p, ws[0]), p, ws[1]), p, ws[2..])
  {
    hide Apply;
    assert ws[1..][0] == ws[1] && ws[1..][1..] == ws[2..];
  }

  lemma WrittenHolds(space: Space, p: Program)
    requires Gate(space, p, false) in {Ok(Created), Ok(Updated)}
    ensures var after := Deployed(space, p, false); Place(p) in after && Holds(after[Place(p)], p)
  {
    hide Truthy, Preimage, CleanValue;
    var ws := Writes(space, p, false);
    var one := Apply(space, p, ws[0]);
    var two := Apply(one, p, PutSource);
    FirstTwo(space, p, ws);
    if |ws| > 2 {
      assert ws[2..] == [ws[2]];
      Last(two, p, ws[2]);
    }
  }

  /** The gate lets a deploy pass as unchanged exactly when the space holds the
      program as it is -- which a program with NULs in it never is. */
  lemma GateIsExact(space: Space, p: Program, frozen: bool)
    requires (Place(p) in space ==> SoundEntry(space[Place(p)])) && Proper(p) && p.valid
    ensures Gate(space, p, frozen) == Ok(Unchanged) <==>
            Place(p) in space && Holds(space[Place(p)], p) && CleanContent(p.content) == p.content
  {
    assert Printable(Obj([])) && !Truthy(Obj([]));
    hide Printable, Preimage;
    if Place(p) in space && space[Place(p)].code.Some? {
      var e := space[Place(p)];
      var c := InSpace(e).value;
      assert Printable(c.manifest) by { assert SoundEntry(e); }
      StreamDeterminesContent(c, p.content);
      CleanRemovesNuls(p.content.code);
      CleanRemovesNuls(p.content.summary);
      CleanRemovesNuls(p.content.category);
      CleanKeepsPrintable(p.content.manifest);
    }
  }

  /** After any history of deploys, frozen or not, each possibly cut between two
      writes: a whole deploy of a valid program leaves the space holding it; another
      at once writes the same again, and reports it unchanged (writing nothing)
      exactly when no text of the program holds a NUL. */
  lemma DeploysConverge(events: seq<Event>, p: Program)
    requires (forall e | e in events :: Proper(e.p)) && Proper(p) && p.valid
    ensures var before := After(map[], events);
            var after := Deployed(before, p, false);
            Gate(before, p, false).Ok? &&
            Place(p) in after && Holds(after[Place(p)], p) &&
            (Gate(after, p, false) == Ok(Unchanged) <==> CleanContent(p.content) == p.content)
  {
    var before := After(map[], events);
    var after := Deployed(before, p, false);
    HistoriesKeepSound(map[], events);
    ApplyAllKeepsSound(before, p, Writes(before, p, false));
    GateIsExact(before, p, false);
    GateIsExact(after, p, false);
    if Gate(before, p, false) != Ok(Unchanged) { WrittenHolds(before, p); }
  }

  /** ... and the other programs are left as they were, wherever the deploy is cut. */
  lemma OthersUntouched(space: Space, p: Program, frozen: bool, cut: nat, k: Key)
    requires k != Place(p)
    ensures k in Cutoff(space, p, frozen, cut) <==> k in space
    ensures k in space ==> Cutoff(space, p, frozen, cut)[k] == space[k]
  {
    var ws := Writes(space, p, frozen);
    OthersUntouchedBy(space, p, if cut < |ws| then ws[..cut] else ws, k);
  }

  lemma {:induction false} OthersUntouchedBy(space: Space, p: Program, ws: seq<Write>, k: Key)
    requires k != Place(p)
    ensures k in ApplyAll(space, p, ws) <==> k in space
    ensures k in space ==> ApplyAll(space, p, ws)[k] == space[k]
    decreases |ws|
  {
    if ws != [] { OthersUntouchedBy(Apply(space, p, ws[0]), p, ws[1..], k); }
  }

  /** A frozen deploy never alters a program the space already has. */
  lemma FrozenNeverAlters(space: Space, p: Program, cut: nat, k: Key)
    requires k in space
    ensures k in Cutoff(space, p, true, cut) && Cutoff(space, p, true, cut)[k] == space[k]
  {
    if k == Place(p) {
      assert Writes(space, p, true) == [];
    } else {
      OthersUntouched(space, p, true, cut, k);
    }
  }

  lemma {:induction false} FrozenHistoriesNeverAlter(space: Space, events: seq<Event>, k: Key)
    requires k in space && forall e | e in events :: e.frozen
    ensures k in After(space, events) && After(space, events)[k] == space[k]
    decreases |events|
  {
    if events != [] {
      var e := events[0];
      FrozenNeverAlters(space, e.p, e.cut, k);
      FrozenHistoriesNeverAlter(Cutoff(space, e.p, true, e.cut), events[1..], k);
    }
  }

  // --- a cut frozen deploy ---

  /** The writes of a first deploy. */
  function FirstWrites(p: Program): seq<Write> {
    [Create, PutSource] + if Truthy(p.content.manifest) then [PutManifest] else []
  }

  /** What is left of a first deploy, cut or not, has its code from the second write on,
      and a truthy manifest from the third. */
  lemma CutEntry(space: Space, p: Program, cut: nat)
    requires p.valid && Place(p) !in space && cut > 0
    ensures Writes(space, p, true) == FirstWrites(p)
    ensures var after := Cutoff(space, p, true, cut);
            && Place(p) in after
            && after[Place(p)] == Blank(p).(
                 code := if cut >= 2 then Some(Clean(p.content.code)) else None,
                 manifest := if cut >= 3 && Truthy(p.content.manifest) then Some(CleanValue(p.content.manifest)) else None)
  {
    hide Truthy, CleanValue, Preimage;
    var ws := FirstWrites(p);
    var one := Apply(space, p, Create);
    var two := Apply(one, p, PutSource);
    Last(space, p, Create);
    if cut == 1 {
      assert ws[..1] == [Create];
    } else {
      var done := if cut < |ws| then ws[..cut] else ws;
      FirstTwo(space, p, done);
      if |done| > 2 {
        assert done[2..] == [PutManifest];
        Last(two, p, PutManifest);
      } else {
        assert done[2..] == [];
      }
    }
  }

  /** The price of both: a first frozen deploy that wrote something, but not everything,
      can never be completed by frozen deploys; nor can one that wrote everything, if its
      texts hold a NUL.  Otherwise the retry finds it in place. */
  lemma FrozenCrashIsStuck(space: Space, p: Program, cut: nat, retries: seq<Event>)
    requires Sound(space) && Proper(p) && p.valid && Place(p) !in space && cut > 0
    requires forall e | e in retries :: e.frozen
    ensures var later := After(Cutoff(space, p, true, cut), retries);
            && Gate(later, p, true) in {Err(FrozenVersion), Ok(Unchanged)}
            && (Gate(later, p, true) == Err(FrozenVersion) <==>
                  cut < |Writes(space, p, true)| || CleanContent(p.content) != p.content)
  {
    hide Truthy, CleanValue, Printable, Apply, CleanContent;
    var cutoff := Cutoff(space, p, true, cut);
    var later := After(cutoff, retries);
    CutEntry(space, p, cut);
    FrozenHistoriesNeverAlter(cutoff, retries, Place(p));
    CutKeepsSound(space, p, cut);
    GateIsExact(later, p, true);
    GateOfAnEntry(later, p);
    assert Holds(later[Place(p)], p) <==> cut >= |FirstWrites(p)|;
  }

  lemma CutKeepsSound(space: Space, p: Program, cut: nat)
    requires Sound(space) && Proper(p)
    ensures Sound(Cutoff(space, p, true, cut))
  {
    hide Sound;
    var ws := Writes(space, p, true);
    ApplyAllKeepsSound(space, p, if cut < |ws| then ws[..cut] else ws);
  }

  lemma GateOfAnEntry(space: Space, p: Program)
    requires p.valid && Place(p) in space
    ensures Gate(space, p, true) in {Err(FrozenVersion), Ok(Unchanged)}
  {
    hide Preimage, InSpace;
  }

  // --- by name and version ---

  /** What the write guard leaves of a string. */
  lemma {:induction false} CleanReplaces(s: string)
    ensures forall i | 0 <= i < |s| :: Clean(s)[i] == if s[i] == '\0' then '\U{FFFD}' else s[i]
  {
    if s != "" {
      CleanReplaces(s[1..]);
      forall i | 0 <= i < |s| ensures Clean(s)[i] == if s[i] == '\0' then '\U{FFFD}' else s[i] {
        if i > 0 { assert s[i] == s[1..][i - 1] && Clean(s)[i] == Clean(s[1..])[i - 1]; }
      }
    }
  }

  predicate NulFreeKey(k: Key) { NulFree(k.name) && NulFree(k.version) }

  lemma OwnPlace(p: Program)
    requires NulFreeKey(p.key)
    ensures Place(p) == p.key
  {
    CleanRemovesNuls(p.key.name);
    CleanRemovesNuls(p.key.version);
  }

  /** A whole deploy leaves the program in the space under its own name and version,
      whatever was cut before. */
  lemma DeployLandsAtItsKey(events: seq<Event>, p: Program)
    requires (forall e | e in events :: Proper(e.p)) && Proper(p) && p.valid && NulFreeKey(p.key)
    ensures var after := Deployed(After(map[], events), p, false);
            p.key in after && Holds(after[p.key], p)
  {
    hide Deployed, After, Holds, Proper;
    OwnPlace(p);
    DeploysConverge(events, p);
  }

  /** Cut anywhere, a deploy leaves the entry of every other name and version as it was. */
  lemma OtherKeysUntouched(space: Space, p: Program, frozen: bool, cut: nat, k: Key)
    requires NulFreeKey(p.key) && k != p.key
    ensures k in Cutoff(space, p, frozen, cut) <==> k in space
    ensures k in space ==> Cutoff(space, p, frozen, cut)[k] == space[k]
  {
    hide Cutoff;
    OwnPlace(p);
    OthersUntouched(space, p, frozen, cut, k);
  }

  /** So two versions of one program stand side by side, the second deployed frozen or not. */
  lemma VersionsStandSideBySide(events: seq<Event>, p: Program, q: Program, frozen: bool)
    requires (forall e | e in events :: Proper(e.p)) && Proper(p) && Proper(q) && p.valid && q.valid
    requires NulFreeKey(p.key) && NulFreeKey(q.key) && p.key.name == q.key.name && p.key.version != q.key.version
    requires q.key !in After(map[], events)
    ensures var first := Deployed(After(map[], events), p, false);
            var both := Deployed(first, q, frozen);
            && Gate(first, q, frozen) == Ok(Created)
            && p.key in both && q.key in both && Holds(both[p.key], p) && Holds(both[q.key], q)
  {
    hide After, Holds, Proper, Apply, Truthy;
    var space := After(map[], events);
    var first := Deployed(space, p, false);
    DeployLandsAtItsKey(events, p);
    OwnPlace(p);
    OwnPlace(q);
    OthersUntouchedBy(space, p, Writes(space, p, false), q.key);
    OthersUntouchedBy(first, q, Writes(first, q, frozen), p.key);
    assert Writes(first, q, frozen) == Writes(first, q, false);
    WrittenHolds(first, q);
  }

  /** What a deploy reports: created where the space has no program of that name and version;
      where it has one, unchanged, or else updated, and if frozen refused. */
  lemma GateTells(space: Space, p: Program, frozen: bool)
    requires NulFreeKey(p.key)
    ensures Gate(space, p, frozen) == Err(Invalid) <==> !p.valid
    ensures Gate(space, p, frozen) == Ok(Created) <==> p.valid && p.key !in space
    ensures Gate(space, p, frozen) == Err(FrozenVersion) <==>
              p.valid && p.key in space && frozen && Gate(space, p, false) == Ok(Updated)
    ensures Gate(space, p, frozen) == Ok(Unchanged) <==>
              p.valid && p.key in space && Gate(space, p, false) == Ok(Unchanged)
  {
    hide Preimage;
    OwnPlace(p);
  }

  /** The first write, created or updated, brings the program's credentials with it. */
  lemma CredentialsAreWritten(space: Space, p: Program)
    requires NulFreeKey(p.key) && NulFree(p.credentials) && Gate(space, p, false) in {Ok(Created), Ok(Updated)}
    ensures var after := Deployed(space, p, false); p.key in after && after[p.key].credentials == p.credentials
  {
    hide Truthy, Preimage, CleanValue;
    OwnPlace(p);
    CleanRemovesNuls(p.credentials);
    var ws := Writes(space, p, false);
    var two := Apply(Apply(space, p, ws[0]), p, PutSource);
    FirstTwo(space, p, ws);
    if |ws| > 2 {
      assert ws[2..] == [ws[2]];
      Last(two, p, ws[2]);
    }
  }
}
