/** Space-backed module resolution: a spec and the requester's object id become a
    source, with a probe cache and the defining space of every module served. */
module Resolver {
  import opened Options
  import opened Text

  type Space = string
  type Oid = string

  // --- specs: `[alias:]name@version` ---

  datatype Name = Name(name: string, version: string)

  datatype Spec = Spec(alias: Option<string>, what: Name)

  function SplitVersion(rest: string): Option<Name> {
    match LastIndexOf(rest, '@')
    case None => None
    case Some(i) => Some(Name(rest[..i], rest[i + 1..]))
  }

  function Parse(spec: string): Option<Spec> {
    var colon := IndexOf(spec, ':');
    var alias := match colon case Some(i) => Some(spec[..i]) case None => None;
    match SplitVersion(match colon case Some(i) => spec[i + 1..] case None => spec)
    case None => None
    case Some(n) => Some(Spec(alias, n))
  }

  function RenderName(n: Name): string { n.name + ['@'] + n.version }

  function Render(s: Spec): string {
    match s.alias case Some(a) => a + [':'] + RenderName(s.what) case None => RenderName(s.what)
  }

  /** What a parse can give: no colon in the alias, none anywhere without one, and no
      `@` in the version. */
  predicate Canonical(s: Spec) {
    '@' !in s.what.version && ':' !in match s.alias case Some(a) => a case None => RenderName(s.what)
  }

  lemma {:induction false} FirstAt(a: string, c: char, b: string)
    requires c !in a
    ensures IndexOf(a + [c] + b, c) == Some(|a|)
  {
    if a != "" {
      assert (a + [c] + b)[1..] == a[1..] + [c] + b;
      FirstAt(a[1..], c, b);
    }
  }

  lemma {:induction false} LastAt(a: string, c: char, b: string)
    requires c !in b
    ensures LastIndexOf(a + [c] + b, c) == Some(|a|)
  {
    var t := a + [c] + b;
    if b != "" {
      var most := b[..|b| - 1];
      assert t[|t| - 1] == b[|b| - 1] && t[..|t| - 1] == a + [c] + most;
      assert forall x | x in most :: x in b;
      LastAt(a, c, most);
    }
  }

  lemma NameSplits(t: string)
    requires SplitVersion(t).Some?
    ensures t == RenderName(SplitVersion(t).value) && '@' !in SplitVersion(t).value.version
  {
  }

  lemma NameJoins(n: Name)
    requires '@' !in n.version
    ensures SplitVersion(RenderName(n)) == Some(n)
  {
    hide LastIndexOf;
    LastAt(n.name, '@', n.version);
    var t := RenderName(n);
    assert t[..|n.name|] == n.name && t[|n.name| + 1..] == n.version;
  }

  lemma ParsedRenders(text: string)
    requires Parse(text).Some?
    ensures text == Render(Parse(text).value) && Canonical(Parse(text).value)
  {
    hide IndexOf, SplitVersion, RenderName;
    var colon := IndexOf(text, ':');
    if colon.Some? {
      NameSplits(text[colon.value + 1..]);
    } else {
      NameSplits(text);
    }
  }

  lemma RenderedParses(s: Spec)
    requires Canonical(s)
    ensures Parse(Render(s)) == Some(s)
  {
    hide IndexOf, SplitVersion, RenderName;
    var rest := RenderName(s.what);
    NameJoins(s.what);
    if s.alias.Some? {
      var a := s.alias.value;
      FirstAt(a, ':', rest);
      Halves(a, ':', rest);
    }
  }

  lemma Halves(a: string, c: char, b: string)
    ensures (a + [c] + b)[..|a|] == a && (a + [c] + b)[|a| + 1..] == b
  {
  }

  /** Parsing reads back exactly what it could have come from. */
  lemma ParseIsExact(text: string, s: Spec)
    ensures Parse(text) == Some(s) <==> text == Render(s) && Canonical(s)
  {
    hide Parse, Render, Canonical;
    if Parse(text).Some? { ParsedRenders(text); }
    if Canonical(s) { RenderedParses(s); }
  }

  // --- the spaces ---

  datatype Version = Version(code: string, marker: int)

  /** A program object; its source record comes with the write that made it. */
  datatype Program = Program(oid: Oid, main: Option<Version>)

  /** The spaces that have a `program` type, with their programs. */
  type World = map<Space, map<Name, Program>>

  datatype Config = Config(current: Space, priv: Option<Space>, aliases: map<string, Space>)

  datatype CacheWord = Hit | Miss

  datatype Served = Served(space: Space, key: Key, code: string, cache: CacheWord)

  datatype Key = Key(oid: Oid, marker: int)

  datatype ResolveError = BadSpec | UnknownAlias | Missing(space: Space) | NotFound

  /** What the resolver remembers. */
  datatype Memory = Memory(probed: set<Key>, origins: map<Oid, Space>, schemas: set<Space>)

  function Typed(m: Memory, world: World, space: Space): Memory {
    if space in world then m.(schemas := m.schemas + {space}) else m
  }

  function Serve(m: Memory, space: Space, oid: Oid, v: Version): (Memory, Served) {
    var key := Key(oid, v.marker);
    (m.(probed := m.probed + {key}, origins := m.origins[oid := space]),
     Served(space, key, v.code, if key in m.probed then Hit else Miss))
  }

  function ResolveIn(m: Memory, world: World, space: Space, n: Name): (Memory, Result<Served, ResolveError>) {
    var typed := Typed(m, world, space);
    if space !in world || n !in world[space] then (typed, Err(Missing(space)))
    else
      match world[space][n].main
      case None => (typed, Err(NotFound))
      case Some(v) =>
        var (after, served) := Serve(typed, space, world[space][n].oid, v);
        (after, Ok(served))
  }

  /** The space an alias names; none when it is unknown or names the empty space. */
  function AliasSpace(cfg: Config, alias: string): Option<Space> {
    var space := if alias == "private" then cfg.priv
                 else if alias in cfg.aliases then Some(cfg.aliases[alias])
                 else Some(alias);
    if space == Some("") then None else space
  }

  function Resolve(m: Memory, world: World, cfg: Config, spec: string, frm: Option<Oid>)
    : (Memory, Result<Served, ResolveError>)
  {
    match Parse(spec)
    case None => (m, Err(BadSpec))
    case Some(s) =>
      var n := s.what;
      match s.alias
      case Some(alias) =>
        (match AliasSpace(cfg, alias)
         case None => (m, Err(UnknownAlias))
         case Some(space) => ResolveIn(m, world, space, n))
      case None =>
        if frm.Some? && frm.value in m.origins && m.origins[frm.value] != cfg.current then
          ResolveIn(m, world, m.origins[frm.value], n)
        else
          var (after, r) := ResolveIn(m, world, cfg.current, n);
          if r.Err? && r.error.Missing? && cfg.priv.Some? && cfg.priv.value != cfg.current then
            ResolveIn(after, world, cfg.priv.value, n)
          else (after, r)
  }

  // --- the resolver as it runs ---

  class AnyModuleResolver {
    const cfg: Config
    var probed: set<Key>
    var origins: map<Oid, Space>
    var schemas: set<Space>

    ghost function View(): Memory
      reads this
    {
      Memory(probed, origins, schemas)
    }

    constructor (config: Config)
      ensures cfg == config && View() == Memory({}, map[], {})
    {
      cfg := config;
      probed, origins, schemas := {}, map[], {};
    }

    method SchemaIn(world: World, space: Space) returns (found: bool)
      requires schemas <= world.Keys
      modifies this`schemas
      ensures found == (space in world) && View() == Typed(old(View()), world, space) && schemas <= world.Keys
    {
      if space in schemas {
        assert schemas + {space} == schemas;
        return true;
      }
      found := space in world;
      if found {
        schemas := schemas + {space};
      }
    }

    method TryResolveIn(world: World, space: Space, n: Name) returns (r: Result<Served, ResolveError>)
      requires schemas <= world.Keys
      modifies this
      ensures schemas <= world.Keys && (View(), r) == ResolveIn(old(View()), world, space, n)
      ensures r.Ok? ==> Holds(world, space, n, r.value.key.oid, Version(r.value.code, r.value.key.marker))
      ensures r.Err? ==> probed == old(probed) && origins == old(origins)
    {
      var found := SchemaIn(world, space);
      if !found || n !in world[space] {
        return Err(Missing(space));
      }
      var program := world[space][n];
      if program.main.None? {
        return Err(NotFound);
      }
      var key := Key(program.oid, program.main.value.marker);
      var cache := if key in probed then Hit else Miss;
      probed := probed + {key};
      origins := origins[program.oid := space];
      r := Ok(Served(space, key, program.main.value.code, cache));
    }

    /** Cached schemas stand for spaces that still have the type: types do not go away. */
    method TryResolve(world: World, spec: string, frm: Option<Oid>) returns (r: Result<Served, ResolveError>)
      requires schemas <= world.Keys
      modifies this
      ensures schemas <= world.Keys && (View(), r) == Resolve(old(View()), world, cfg, spec, frm)
      ensures r.Ok? ==> r.value.key in probed && r.value.key.oid in origins && origins[r.value.key.oid] == r.value.space
      ensures r.Err? ==> probed == old(probed) && origins == old(origins)
    {
      var s := Parse(spec);
      if s.None? {
        return Err(BadSpec);
      }
      var n := s.value.what;
      if s.value.alias.Some? {
        var space := AliasSpace(cfg, s.value.alias.value);
        if space.None? {
          return Err(UnknownAlias);
        }
        r := TryResolveIn(world, space.value, n);
        return;
      }
      if frm.Some? && frm.value in origins && origins[frm.value] != cfg.current {
        r := TryResolveIn(world, origins[frm.value], n);
        return;
      }
      r := TryResolveIn(world, cfg.current, n);
      if r.Err? && r.error.Missing? && cfg.priv.Some? && cfg.priv.value != cfg.current {
        r := TryResolveIn(world, cfg.priv.value, n);
      }
    }
  }

  // --- what a resolution serves ---

  predicate Holds(world: World, space: Space, n: Name, oid: Oid, v: Version) {
    space in world && n in world[space] && world[space][n] == Program(oid, Some(v))
  }

  /** A served source is the one its program holds now, the cache word says whether
      it was served before, and an unqualified import from a module of another space
      is served from that space or not at all. */
  lemma ResolveServesCurrent(m: Memory, world: World, cfg: Config, spec: string, frm: Option<Oid>)
    requires Resolve(m, world, cfg, spec, frm).1.Ok?
    ensures var (after, r) := Resolve(m, world, cfg, spec, frm);
            var s := r.value;
            Parse(spec).Some? &&
            Holds(world, s.space, Parse(spec).value.what, s.key.oid, Version(s.code, s.key.marker)) &&
            (s.cache == Hit <==> s.key in m.probed) &&
            after.probed == m.probed + {s.key} &&
            after.origins == m.origins[s.key.oid := s.space] &&
            (Parse(spec).value.alias.None? && frm.Some? && frm.value in m.origins && m.origins[frm.value] != cfg.current
             ==> s.space == m.origins[frm.value])
  {
  }

  /** Where a spec is served from: the alias's space, strictly; else the requester's
      defining space, strictly, when that is not the current one; else the current space,
      and the private one only for what the current one does not have. */
  lemma ResolveLooksWhere(m: Memory, world: World, cfg: Config, spec: string, frm: Option<Oid>)
    requires Resolve(m, world, cfg, spec, frm).1.Ok?
    ensures var space := Resolve(m, world, cfg, spec, frm).1.value.space;
            var what := Parse(spec).value;
            match what.alias
            case Some(alias) => AliasSpace(cfg, alias) == Some(space)
            case None =>
              if frm.Some? && frm.value in m.origins
                  && m.origins[frm.value] != cfg.current then space == m.origins[frm.value]
              else if cfg.current in world && what.what in world[cfg.current] then space == cfg.current
              else cfg.priv == Some(space) && space != cfg.current
  {
    hide Parse;
  }

  lemma FailureRemembersNothing(m: Memory, world: World, cfg: Config, spec: string, frm: Option<Oid>)
    requires Resolve(m, world, cfg, spec, frm).1.Err?
    ensures var after := Resolve(m, world, cfg, spec, frm).0;
            after.probed == m.probed && after.origins == m.origins
  {
  }

  // --- what an alias names ---

  /** A qualified spec is looked up in one space: the private one for "private", the one it
      is configured for, or else the space called like it; and the alias is unknown if that
      is none or the empty one. */
  lemma AliasesName(m: Memory, world: World, cfg: Config, alias: string, n: Name, frm: Option<Oid>)
    requires ':' !in alias && '@' !in n.version
    ensures var (after, r) := Resolve(m, world, cfg, alias + [':'] + n.name + ['@'] + n.version, frm);
            && (alias == "private" && cfg.priv.Some? && cfg.priv.value != "" ==>
                  (after, r) == ResolveIn(m, world, cfg.priv.value, n))
            && (alias == "private" && (cfg.priv.None? || cfg.priv.value == "") ==> r == Err(UnknownAlias))
            && (alias != "private" && alias in cfg.aliases && cfg.aliases[alias] != "" ==>
                  (after, r) == ResolveIn(m, world, cfg.aliases[alias], n))
            && (alias != "private" && alias in cfg.aliases && cfg.aliases[alias] == "" ==> r == Err(UnknownAlias))
            && (alias != "private" && alias !in cfg.aliases && alias != "" ==>
                  (after, r) == ResolveIn(m, world, alias, n))
            && (alias == "" && alias !in cfg.aliases ==> r == Err(UnknownAlias))
  {
    hide Parse, ResolveIn;
    var text := alias + [':'] + n.name + ['@'] + n.version;
    assert text == Render(Spec(Some(alias), n)) by { assert text == alias + [':'] + (n.name + ['@'] + n.version); }
    ParseIsExact(text, Spec(Some(alias), n));
  }

  /** A program that the space has is served with its code and marker; the word is "hit" for
      an object and marker probed before. */
  lemma ServesWhatIsThere(m: Memory, world: World, space: Space, n: Name, oid: Oid, v: Version)
    requires Holds(world, space, n, oid, v)
    ensures ResolveIn(m, world, space, n).1 ==
            Ok(Served(space, Key(oid, v.marker), v.code, if Key(oid, v.marker) in m.probed then Hit else Miss))
  {
  }
}
