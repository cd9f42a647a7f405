/** The guest's `use()` over the resolver: module loads -- nested ones, failing ones --
    interleaved with writes to the spaces. */
module Loading {
  import opened Options
  import opened Resolver

  /** A module object: its identity, and the source it was executed from. */
  datatype Module = Module(id: nat, key: Key, code: string)

  /** One served resolution; `home` is the space its requester had been served from. */
  datatype Load = Load(requester: Option<Oid>, home: Option<Space>, qualified: bool, key: Key, space: Space)

  /** `building` is the stack of modules whose top level is running.  The rest is
      history: every source ever written, the space of every object ever created,
      every resolution served, and the modules completed since the last reset. */
  datatype State = State(
    cfg: Config,
    world: World,
    memory: Memory,
    cache: map<Key, Module>,
    building: seq<Module>,
    written: map<Key, string>,
    homes: map<Oid, Space>,
    loads: seq<Load>,
    built: seq<Key>,
    made: nat)

  datatype Step =
    | Use(spec: string, owner: Option<Oid>)
    | Finish // the top level of the innermost module under way returns
    | Fail // ... or raises
    | Reset // the namespace is reset between cells
    | NewProgram(space: Space, name: Name, oid: Oid)
    | Write(space: Space, name: Name, v: Version)
    | Delete(space: Space, name: Name)

  function ProgramAt(w: World, space: Space, n: Name): Option<Program> {
    if space in w && n in w[space] then Some(w[space][n]) else None
  }

  function PutProgram(w: World, space: Space, n: Name, p: Program): World {
    w[space := (if space in w then w[space] else map[])[n := p]]
  }

  /** Object ids are globally unique, and every source write changes the marker. */
  predicate Enabled(s: State, step: Step) {
    match step
    case Use(_, _) => true
    case Finish => s.building != []
    case Fail => s.building != []
    case Reset => s.building == []
    case NewProgram(space, n, oid) => oid !in s.homes && ProgramAt(s.world, space, n).None?
    case Write(space, n, v) =>
      ProgramAt(s.world, space, n).Some? && Key(ProgramAt(s.world, space, n).value.oid, v.marker) !in s.written
    case Delete(space, n) => ProgramAt(s.world, space, n).Some?
  }

  /** What a `use()` does next: an error, a module at once, or a source to execute. */
  datatype Answer = Raised(e: ResolveError) | Ready(m: Module) | Execute(key: Key, code: string)

  function Answered(s: State, spec: string, owner: Option<Oid>): Answer {
    match Resolve(s.memory, s.world, s.cfg, spec, owner).1
    case Err(e) => Raised(e)
    case Ok(r) => if r.key in s.cache then Ready(s.cache[r.key]) else Execute(r.key, r.code)
  }

  function Home(s: State, owner: Option<Oid>): Option<Space> {
    if owner.Some? && owner.value in s.memory.origins then Some(s.memory.origins[owner.value]) else None
  }

  function Loaded(s: State, spec: string, owner: Option<Oid>): State {
    var (memory, r) := Resolve(s.memory, s.world, s.cfg, spec, owner);
    match r
    case Err(_) => s.(memory := memory)
    case Ok(served) =>
      var load := Load(owner, Home(s, owner), Parse(spec).Some? && Parse(spec).value.alias.Some?, served.key, served.space);
      var t := s.(memory := memory, loads := s.loads + [load]);
      if served.key in s.cache then t
      else t.(building := s.building + [Module(s.made, served.key, served.code)], made := s.made + 1)
  }

  function Finished(s: State): State
    requires s.building != []
  {
    var m := s.building[|s.building| - 1];
    s.(building := s.building[..|s.building| - 1], cache := s.cache[m.key := m], built := s.built + [m.key])
  }

  function Written(s: State, space: Space, n: Name, v: Version): State
    requires ProgramAt(s.world, space, n).Some?
  {
    var p := ProgramAt(s.world, space, n).value;
    s.(world := PutProgram(s.world, space, n, p.(main := Some(v))), written := s.written[Key(p.oid, v.marker) := v.code])
  }

  function Next(s: State, step: Step): State
    requires Enabled(s, step)
  {
    match step
    case Use(spec, owner) => Loaded(s, spec, owner)
    case Finish => Finished(s)
    case Fail => s.(building := s.building[..|s.building| - 1])
    case Reset => s.(cache := map[], built := [])
    case NewProgram(space, n, oid) =>
      s.(world := PutProgram(s.world, space, n, Program(oid, None)), homes := s.homes[oid := space])
    case Write(space, n, v) => Written(s, space, n, v)
    case Delete(space, n) => s.(world := s.world[space := s.world[space] - {n}])
  }

  ghost predicate CanRun(s: State, steps: seq<Step>)
    decreases |steps|
  {
    steps == [] || (Enabled(s, steps[0]) && CanRun(Next(s, steps[0]), steps[1..]))
  }

  ghost function Run(s: State, steps: seq<Step>): State
    requires CanRun(s, steps)
    decreases |steps|
  {
    if steps == [] then s else Run(Next(s, steps[0]), steps[1..])
  }

  function Start(cfg: Config): State {
    State(cfg, map[], Memory({}, map[], {}), map[], [], map[], map[], [], [], 0)
  }

  // --- what every run keeps ---

  /** The spaces agree with what was written and created. */
  ghost predicate WorldOk(s: State) {
    forall space, n | space in s.world && n in s.world[space] ::
      var p := s.world[space][n];
      p.oid in s.homes && s.homes[p.oid] == space &&
      (p.main.Some? ==> Key(p.oid, p.main.value.marker) in s.written &&
                        s.written[Key(p.oid, p.main.value.marker)] == p.main.value.code)
  }

  predicate FromStore(s: State, m: Module) { m.key in s.written && s.written[m.key] == m.code }

  /** Cached modules, and those under way, are what was written under their key. */
  ghost predicate ModulesOk(s: State) {
    && (forall k | k in s.cache :: s.cache[k].key == k && FromStore(s, s.cache[k]))
    && (forall m | m in s.building :: FromStore(s, m))
  }

  ghost predicate OriginsOk(s: State) {
    && (forall oid | oid in s.memory.origins :: oid in s.homes && s.homes[oid] == s.memory.origins[oid])
    && (forall l | l in s.loads :: LoadOk(s, l))
    && (forall k | k in s.memory.probed :: ServedBefore(s, k))
  }

  ghost predicate ServedBefore(s: State, k: Key) { exists l :: l in s.loads && l.key == k }

  /** Served where its object lives; and where an unqualified import is asked for by a
      module of another space than the current one, in that module's space. */
  predicate LoadOk(s: State, l: Load) {
    && l.key in s.memory.probed
    && l.key.oid in s.memory.origins && s.memory.origins[l.key.oid] == l.space
    && (l.home.Some? && l.home.value != s.cfg.current && !l.qualified ==> l.space == l.home.value)
  }

  /** A requester served earlier is known by the space it was served from. */
  ghost predicate HomesKnown(loads: seq<Load>) {
    forall i, j :: 0 <= i < j < |loads| && loads[j].requester == Some(loads[i].key.oid) ==>
      loads[j].home == Some(loads[i].space)
  }

  ghost predicate Inv(s: State) { WorldOk(s) && ModulesOk(s) && OriginsOk(s) && HomesKnown(s.loads) }

  lemma UseKeepsInv(s: State, spec: string, owner: Option<Oid>)
    requires Inv(s)
    ensures Inv(Loaded(s, spec, owner))
  {
    hide Resolve, Parse;
    var (memory, r) := Resolve(s.memory, s.world, s.cfg, spec, owner);
    if r.Ok? {
      ResolveServesCurrent(s.memory, s.world, s.cfg, spec, owner);
      UseKeepsOrigins(s, spec, owner);
      UseKeepsHomes(s, spec, owner);
    } else {
      FailureRemembersNothing(s.memory, s.world, s.cfg, spec, owner);
    }
  }

  lemma UseKeepsOrigins(s: State, spec: string, owner: Option<Oid>)
    requires WorldOk(s) && OriginsOk(s) && Resolve(s.memory, s.world, s.cfg, spec, owner).1.Ok?
    ensures OriginsOk(Loaded(s, spec, owner))
  {
    hide Resolve, Parse;
    ResolveServesCurrent(s.memory, s.world, s.cfg, spec, owner);
    var t := Loaded(s, spec, owner);
    var served := Resolve(s.memory, s.world, s.cfg, spec, owner).1.value;
    var last := t.loads[|s.loads|];
    assert last.key == served.key && LoadOk(t, last);
    forall l | l in t.loads ensures LoadOk(t, l) {
      if l in s.loads { assert LoadOk(s, l); }
    }
    forall k | k in t.memory.probed ensures ServedBefore(t, k) {
      if k in s.memory.probed {
        var l :| l in s.loads && l.key == k;
        assert l in t.loads;
      } else {
        assert last in t.loads;
      }
    }
  }

  lemma UseKeepsHomes(s: State, spec: string, owner: Option<Oid>)
    requires OriginsOk(s) && HomesKnown(s.loads) && Resolve(s.memory, s.world, s.cfg, spec, owner).1.Ok?
    ensures HomesKnown(Loaded(s, spec, owner).loads)
  {
    hide Resolve, Parse;
    var t := Loaded(s, spec, owner);
    forall i | 0 <= i < |s.loads| ensures LoadOk(s, s.loads[i]) {
      assert s.loads[i] in s.loads;
    }
  }

  lemma OriginsUntouched(s: State, t: State)
    requires OriginsOk(s) && t.memory == s.memory && t.loads == s.loads && t.cfg == s.cfg
    requires forall oid | oid in s.homes :: oid in t.homes && t.homes[oid] == s.homes[oid]
    ensures OriginsOk(t)
  {
    forall l | l in t.loads ensures LoadOk(t, l) { assert LoadOk(s, l); }
    forall k | k in t.memory.probed ensures ServedBefore(t, k) { assert ServedBefore(s, k); }
  }

  lemma StoreKeepsWorld(s: State, step: Step)
    requires WorldOk(s) && Enabled(s, step) && (step.NewProgram? || step.Write? || step.Delete?)
    ensures WorldOk(Next(s, step))
  {
  }

  lemma NextKeepsInv(s: State, step: Step)
    requires Inv(s) && Enabled(s, step)
    ensures Inv(Next(s, step))
  {
    hide Resolve, Parse, LoadOk, WorldOk, OriginsOk;
    var t := Next(s, step);
    if step.Use? {
      UseKeepsInv(s, step.spec, step.owner);
    } else {
      OriginsUntouched(s, t);
      if step.Finish? || step.Fail? || step.Reset? {
        StackStepKeepsModules(s, step);
        WorldUntouched(s, t);
      } else {
        StoreKeepsWorld(s, step);
      }
    }
  }

  lemma StackStepKeepsModules(s: State, step: Step)
    requires ModulesOk(s) && Enabled(s, step) && (step.Finish? || step.Fail? || step.Reset?)
    ensures ModulesOk(Next(s, step))
  {
    var t := Next(s, step);
    if step.Finish? { assert FromStore(s, s.building[|s.building| - 1]); }
    assert forall m | m in t.building :: m in s.building;
    assert forall k | k in s.cache :: FromStore(s, s.cache[k]);
  }

  lemma WorldUntouched(s: State, t: State)
    requires WorldOk(s) && t.world == s.world && t.written == s.written && t.homes == s.homes
    ensures WorldOk(t)
  {
  }

  lemma {:induction false} RunKeepsInv(s: State, steps: seq<Step>)
    requires Inv(s) && CanRun(s, steps)
    ensures Inv(Run(s, steps))
    decreases |steps|
  {
    if steps != [] {
      NextKeepsInv(s, steps[0]);
      RunKeepsInv(Next(s, steps[0]), steps[1..]);
    }
  }

  // --- what `use()` returns ---

  /** The source a program has in the spaces now. */
  predicate Current(s: State, spec: string, key: Key, code: string) {
    Parse(spec).Some? &&
    exists space :: space in s.world && Resolver.Holds(s.world, space, Parse(spec).value.what, key.oid, Version(code, key.marker))
  }

  /** At any point of any run, `use()` answers with the source current at the probe --
      at once with a module executed from it, or by executing it now. */
  lemma UseIsCurrent(cfg: Config, steps: seq<Step>, spec: string, owner: Option<Oid>)
    requires CanRun(Start(cfg), steps)
    ensures var s := Run(Start(cfg), steps);
            match Answered(s, spec, owner)
            case Raised(_) => true
            case Ready(m) => Current(s, spec, m.key, m.code)
            case Execute(key, code) => Current(s, spec, key, code)
  {
    hide Resolve, Parse;
    RunKeepsInv(Start(cfg), steps);
    var s := Run(Start(cfg), steps);
    if Resolve(s.memory, s.world, s.cfg, spec, owner).1.Ok? {
      ResolveServesCurrent(s.memory, s.world, s.cfg, spec, owner);
    }
  }

  ghost predicate StaysAbove(s: State, steps: seq<Step>, depth: nat)
    requires CanRun(s, steps)
    decreases |steps|
  {
    |s.building| >= depth && (steps == [] || StaysAbove(Next(s, steps[0]), steps[1..], depth))
  }

  lemma {:induction false} UnderWayStays(s: State, steps: seq<Step>, depth: nat)
    requires CanRun(s, steps) && StaysAbove(s, steps, depth)
    ensures |Run(s, steps).building| >= depth && Run(s, steps).building[..depth] == s.building[..depth]
    decreases |steps|
  {
    if steps != [] { UnderWayStays(Next(s, steps[0]), steps[1..], depth); }
  }

  /** A module that has to be executed is, when its top level returns, the one cached
      and returned -- whatever its top level loaded, failed to load or deployed. */
  lemma ExecutedIsReturned(s: State, spec: string, owner: Option<Oid>, nested: seq<Step>)
    requires Answered(s, spec, owner).Execute? && CanRun(Loaded(s, spec, owner), nested)
    requires StaysAbove(Loaded(s, spec, owner), nested, |s.building| + 1)
    requires |Run(Loaded(s, spec, owner), nested).building| == |s.building| + 1
    ensures var a := Answered(s, spec, owner);
            var t := Finished(Run(Loaded(s, spec, owner), nested));
            t.building == s.building && a.key in t.cache && t.cache[a.key] == Module(s.made, a.key, a.code)
  {
    hide Resolve, Parse;
    var t := Loaded(s, spec, owner);
    UnderWayStays(t, nested, |s.building| + 1);
    var u := Run(t, nested);
    assert u.building == u.building[..|s.building| + 1] == t.building;
  }

  // --- each module once ---

  /** No import of a module that is itself under way. */
  ghost predicate Acyclic(s: State, steps: seq<Step>)
    requires CanRun(s, steps)
    decreases |steps|
  {
    steps == [] ||
    ((steps[0].Use? ==> var a := Answered(s, steps[0].spec, steps[0].owner);
                        a.Execute? ==> forall m | m in s.building :: m.key != a.key) &&
     Acyclic(Next(s, steps[0]), steps[1..]))
  }

  ghost predicate Once(s: State) {
    && (forall i, j :: 0 <= i < j < |s.built| ==> s.built[i] != s.built[j])
    && (forall k | k in s.built :: k in s.cache)
    && (forall i | 0 <= i < |s.building| :: s.building[i].key !in s.cache)
    && (forall i, j :: 0 <= i < j < |s.building| ==> s.building[i].key != s.building[j].key)
  }

  /** Without cyclic imports each (object, marker) is built at most once between
      resets, and every `use()` of it gives the very same module object from then on. */
  lemma {:induction false} BuiltOnce(s: State, steps: seq<Step>)
    requires Once(s) && CanRun(s, steps) && Acyclic(s, steps)
    ensures Once(Run(s, steps))
    ensures (forall step | step in steps :: !step.Reset?) ==>
              forall k | k in s.cache :: k in Run(s, steps).cache && Run(s, steps).cache[k] == s.cache[k]
    decreases |steps|
  {
    if steps != [] {
      hide Resolve, Parse;
      OnceKept(s, steps[0]);
      BuiltOnce(Next(s, steps[0]), steps[1..]);
    }
  }

  lemma FinishKeepsOnce(s: State)
    requires Once(s) && s.building != []
    ensures Once(Finished(s))
    ensures forall k | k in s.cache :: k in Finished(s).cache && Finished(s).cache[k] == s.cache[k]
  {
  }

  lemma UseKeepsOnce(s: State, spec: string, owner: Option<Oid>)
    requires Once(s)
    requires var a := Answered(s, spec, owner); a.Execute? ==> forall m | m in s.building :: m.key != a.key
    ensures Once(Loaded(s, spec, owner)) && Loaded(s, spec, owner).cache == s.cache
  {
    hide Resolve, Parse;
  }

  lemma OnceKept(s: State, step: Step)
    requires Once(s) && Enabled(s, step)
    requires step.Use? ==> var a := Answered(s, step.spec, step.owner);
                           a.Execute? ==> forall m | m in s.building :: m.key != a.key
    ensures Once(Next(s, step))
    ensures !step.Reset? ==> forall k | k in s.cache :: k in Next(s, step).cache && Next(s, step).cache[k] == s.cache[k]
  {
    hide Loaded, Finished;
    match step
    case Use(spec, owner) => UseKeepsOnce(s, spec, owner);
    case Finish => FinishKeepsOnce(s);
    case _ =>
  }

  lemma QualifiedForgetsMemory(m: Memory, later: Memory, world: World, cfg: Config, spec: string,
                               owner: Option<Oid>, other: Option<Oid>)
    requires Parse(spec).Some? && Parse(spec).value.alias.Some? && Resolve(m, world, cfg, spec, owner).1.Ok?
    ensures var a, b := Resolve(m, world, cfg, spec, owner).1, Resolve(later, world, cfg, spec, other).1;
            b.Ok? && b.value.(cache := a.value.cache) == a.value
  {
    hide Parse;
  }

  /** The condition is needed: a module imported again while its own top level runs is
      executed twice, and the outer object replaces the inner one in the cache. */
  lemma ReentryBuildsTwice(s: State, spec: string, owner: Option<Oid>, inner: Option<Oid>)
    requires Answered(s, spec, owner).Execute? && Parse(spec).Some? && Parse(spec).value.alias.Some?
    ensures var key := Answered(s, spec, owner).key;
            var t := Loaded(Loaded(s, spec, owner), spec, inner);
            |t.building| == |s.building| + 2 &&
            var u := Finished(t);
            var v := Finished(u);
            v.built == s.built + [key, key] && u.cache[key].id != v.cache[key].id
  {
    hide Parse, Resolve;
    var one := Loaded(s, spec, owner);
    QualifiedForgetsMemory(s.memory, one.memory, s.world, s.cfg, spec, owner, inner);
  }

  // --- confinement ---

  lemma Confined(s: State, i: nat, j: nat)
    requires Inv(s) && i < j < |s.loads| && s.loads[i].space != s.cfg.current
    requires !s.loads[j].qualified && s.loads[j].requester == Some(s.loads[i].key.oid)
    ensures s.loads[j].space == s.loads[i].space
  {
    assert s.loads[j] in s.loads && LoadOk(s, s.loads[j]);
    assert s.loads[j].home == Some(s.loads[i].space);
  }

  /** Later and later resolutions, each an unqualified import asked for by the module
      the one before served. */
  ghost predicate Chain(loads: seq<Load>, chain: seq<nat>) {
    && chain != []
    && (forall i | 0 <= i < |chain| :: chain[i] < |loads|)
    && (forall i | 0 < i < |chain| :: Linked(loads, chain[i - 1], chain[i]))
  }

  predicate Linked(loads: seq<Load>, i: nat, j: nat) {
    i < j < |loads| && !loads[j].qualified && loads[j].requester == Some(loads[i].key.oid)
  }

  lemma {:induction false} ChainStays(s: State, chain: seq<nat>)
    requires Inv(s) && Chain(s.loads, chain) && s.loads[chain[0]].space != s.cfg.current
    ensures forall i | 0 <= i < |chain| :: s.loads[chain[i]].space == s.loads[chain[0]].space
    decreases |chain|
  {
    hide Inv;
    if |chain| > 1 {
      var init := chain[..|chain| - 1];
      assert Chain(s.loads, init);
      ChainStays(s, init);
      var i, j := chain[|chain| - 2], chain[|chain| - 1];
      assert init[|chain| - 2] == i && Linked(s.loads, i, j);
      Confined(s, i, j);
      assert forall k | 0 <= k < |chain| - 1 :: init[k] == chain[k];
    }
  }

  /** In any run, a chain of unqualified imports that starts at a module of a space
      other than the current one stays in that space, however long it is. */
  lemma ImportsStayInTheirSpace(cfg: Config, steps: seq<Step>, chain: seq<nat>)
    requires CanRun(Start(cfg), steps) && Chain(Run(Start(cfg), steps).loads, chain)
    requires Run(Start(cfg), steps).loads[chain[0]].space != cfg.current
    ensures var loads := Run(Start(cfg), steps).loads;
            forall i | 0 <= i < |chain| :: loads[chain[i]].space == loads[chain[0]].space
  {
    hide Next, Chain, WorldOk, ModulesOk, OriginsOk, HomesKnown;
    RunKeepsInv(Start(cfg), steps);
    ConfigKept(Start(cfg), steps);
    ChainStays(Run(Start(cfg), steps), chain);
  }

  lemma {:induction false} ConfigKept(s: State, steps: seq<Step>)
    requires CanRun(s, steps)
    ensures Run(s, steps).cfg == s.cfg
    decreases |steps|
  {
    if steps != [] { ConfigKept(Next(s, steps[0]), steps[1..]); }
  }

  /** And the resolver's cache word tells the truth: a hit is a pair served before. */
  lemma HitMeansServedBefore(cfg: Config, steps: seq<Step>, spec: string, owner: Option<Oid>)
    requires CanRun(Start(cfg), steps)
    requires var s := Run(Start(cfg), steps); Resolve(s.memory, s.world, s.cfg, spec, owner).1.Ok?
    ensures var s := Run(Start(cfg), steps);
            var served := Resolve(s.memory, s.world, s.cfg, spec, owner).1.value;
            served.cache == Hit <==> ServedBefore(s, served.key)
  {
    hide Resolve;
    RunKeepsInv(Start(cfg), steps);
    var s := Run(Start(cfg), steps);
    ResolveServesCurrent(s.memory, s.world, s.cfg, spec, owner);
    var served := Resolve(s.memory, s.world, s.cfg, spec, owner).1.value;
    if ServedBefore(s, served.key) {
      var l :| l in s.loads && l.key == served.key;
      assert LoadOk(s, l);
    }
  }

  /** Freshness of the marker is what all this rests on: a write that keeps it goes
      unseen by every later `use()`. */
  lemma StaleWithoutANewMarker(s: State, spec: string, owner: Option<Oid>, space: Space, v: Version)
    requires Parse(spec).Some? && Parse(spec).value.alias.Some?
    requires Answered(s, spec, owner).Ready?
    requires Resolve(s.memory, s.world, s.cfg, spec, owner).1.value.space == space
    requires v.marker == Answered(s, spec, owner).m.key.marker && v.code != Answered(s, spec, owner).m.code
    requires forall k | k in s.cache :: s.cache[k].key == k
    ensures ProgramAt(s.world, space, Parse(spec).value.what).Some? &&
            Answered(Written(s, space, Parse(spec).value.what, v), spec, owner) == Answered(s, spec, owner)
  {
    hide Parse;
  }
}
