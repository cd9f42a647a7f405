/** The blob directory one process at a time: put, streamed hashing, ranged reads,
    listing and the retention sweep. */
module BlobDir {
  import opened Options
  import opened Text

  type Bytes = seq<bv8>

  const PREFIX := "sha256:"

  predicate HexChar(c: char) { '0' <= c <= '9' || 'a' <= c <= 'f' || 'A' <= c <= 'F' }

  predicate HexName(name: string) { |name| == 64 && forall c | c in name :: HexChar(c) }

  /** `sha256:<hex>` or bare `<hex>` to the file name; nothing else names a file. */
  function PathOf(hash: string): (r: Option<string>)
    ensures r.Some? <==> HexName(hash) || exists name :: HexName(name) && hash == PREFIX + name
  {
    var hex := match StripPrefix(hash, PREFIX) case Some(rest) => rest case None => hash;
    assert HexName(hash) ==> !(PREFIX <= hash) by {
      if PREFIX <= hash { assert hash[0] == PREFIX[0] && hash[0] in hash; }
    }
    if HexName(hex) then Some(hex)
    else
      assert forall name :: hash == PREFIX + name ==> hash[|PREFIX|..] == name;
      None
  }

  function Min(a: nat, b: nat): nat { if a < b then a else b }

  /** `length` bytes from `offset`, clamped to the file. */
  function Range(file: Bytes, offset: nat, length: nat): Bytes {
    var from := Min(offset, |file|);
    file[from..Min(from + length, |file|)]
  }

  // --- listing ---

  predicate SortedNames(names: seq<string>) {
    forall i, j :: 0 <= i < j < |names| ==> Leq(names[i], names[j])
  }

  function InsertName(x: string, names: seq<string>): (r: seq<string>)
    requires SortedNames(names)
    ensures SortedNames(r) && multiset(r) == multiset(names) + multiset{x}
  {
    if names == [] then [x]
    else if Leq(x, names[0]) then
      assert [x] + names == [x] + names && forall i | 0 <= i < |names| :: Leq(x, names[i]) by {
        forall i | 0 < i < |names| ensures Leq(x, names[i]) { LeqChains(x, names[0], names[i]); }
      }
      [x] + names
    else
      var rest := InsertName(x, names[1..]);
      assert names == [names[0]] + names[1..];
      LeqOrders(x, names[0]);
      assert forall n | n in rest :: Leq(names[0], n) by {
        forall n | n in rest ensures Leq(names[0], n) {
          assert n in multiset(rest);
          if n != x { assert n in names[1..]; }
        }
      }
      [names[0]] + rest
  }

  function Hashes(names: set<string>): set<string> {
    set name | name in names && HexName(name) :: PREFIX + name
  }

  lemma OneMore(names: set<string>, name: string)
    requires name !in names
    ensures HexName(name) ==> PREFIX + name !in Hashes(names) && Hashes(names + {name}) == Hashes(names) + {PREFIX + name}
    ensures !HexName(name) ==> Hashes(names + {name}) == Hashes(names)
  {
    hide HexName;
    forall other | other in names ensures PREFIX + other != PREFIX + name { SamePrefix(other, name); }
  }

  lemma SamePrefix(a: string, b: string)
    ensures PREFIX + a == PREFIX + b ==> a == b
  {
    assert (PREFIX + a)[|PREFIX|..] == a && (PREFIX + b)[|PREFIX|..] == b;
  }

  /** The files without those whose hash is gone. */
  function Without(files: map<string, Bytes>, gone: set<string>): map<string, Bytes> {
    map name | name in files && !(HexName(name) && PREFIX + name in gone) :: files[name]
  }

  lemma OneLess(files: map<string, Bytes>, gone: set<string>, name: string)
    requires HexName(name)
    ensures Without(files, gone) - {name} == Without(files, gone + {PREFIX + name})
  {
    hide HexName;
    forall other | other in files ensures PREFIX + other == PREFIX + name ==> other == name { SamePrefix(other, name); }
  }

  // --- the directory ---

  class Directory {
    /** The hash of bytes, as a file name. */
    const hex: Bytes -> string
    var files: map<string, Bytes>

    /** Every hash-named file is named by the hash of its bytes. */
    ghost predicate Valid()
      reads this
    {
      (forall b: Bytes :: HexName(hex(b))) &&
      forall name | name in files && HexName(name) :: hex(files[name]) == name
    }

    constructor (sha: Bytes -> string)
      requires forall b: Bytes :: HexName(sha(b))
      ensures hex == sha && files == map[] && Valid()
    {
      hex := sha;
      files := map[];
    }

    method Put(bytes: Bytes) returns (hash: string)
      requires Valid()
      modifies this
      ensures Valid() && hash == PREFIX + hex(bytes)
      ensures files == if hex(bytes) in old(files) then old(files) else old(files)[hex(bytes) := bytes]
    {
      hash := PREFIX + hex(bytes);
      var path := PathOf(hash).value;
      if path !in files {
        files := files[path := bytes];
      }
    }

    /** A file read in one streamed pass of chunks to be hashed, then copied as it is by then. */
    method PutPath(src: Bytes, later: Bytes) returns (hash: string, size: nat)
      requires Valid()
      modifies this
      ensures hash == PREFIX + hex(src) && size == |src|
      ensures files == if hex(src) in old(files) then old(files) else old(files)[hex(src) := later]
      ensures Valid() <==> hex(src) in old(files) || hex(later) == hex(src)
    {
      var hashed: Bytes := [];
      size := 0;
      while size < |src|
        invariant 0 <= size <= |src| && hashed == src[..size]
      {
        var n: nat :| 0 < n <= 0x10000 && size + n <= |src|;
        hashed := hashed + src[size..size + n];
        size := size + n;
      }
      assert hashed == src;
      hash := PREFIX + hex(hashed);
      var path := PathOf(hash).value;
      if path !in files {
        files := files[path := later];
        assert files[path] == later;
      }
    }

    method Read(hash: string, offset: nat, length: nat) returns (r: Option<Bytes>)
      requires Valid()
      ensures r == match PathOf(hash)
                   case Some(path) => if path in files then Some(Range(files[path], offset, length)) else None
                   case None => None
    {
      var path := PathOf(hash);
      if path.None? || path.value !in files {
        return None;
      }
      r := Some(Range(files[path.value], offset, length));
    }

    method List() returns (out: seq<string>)
      ensures SortedNames(out) && multiset(out) == multiset(Hashes(files.Keys))
    {
      hide Hashes, SortedNames, HexName;
      out := [];
      var rest := files.Keys;
      ghost var seen: set<string> := {};
      NothingYet(files, out, {});
      while rest != {}
        invariant rest <= files.Keys && seen == files.Keys - rest && SortedNames(out)
        invariant multiset(out) == multiset(Hashes(seen))
        decreases |rest|
      {
        var name :| name in rest;
        OneMore(seen, name);
        rest := rest - {name};
        seen := seen + {name};
        if HexName(name) {
          out := InsertName(PREFIX + name, out);
        }
      }
      assert seen == files.Keys;
    }

    method Remove(hash: string) returns (ok: bool)
      modifies this
      ensures ok == PathOf(hash).Some?
      ensures files == if ok then old(files) - {PathOf(hash).value} else old(files)
    {
      var path := PathOf(hash);
      ok := path.Some?;
      if ok {
        files := files - {path.value};
      }
    }

    /** Exactly the hash-named files whose hash is not kept are unlinked, and counted. */
    method Sweep(keep: set<string>) returns (n: nat)
      requires Valid()
      modifies this
      ensures Valid()
      ensures files == Without(old(files), Hashes(old(files.Keys)) - keep)
      ensures n == |Hashes(old(files.Keys)) - keep|
    {
      var all := List();
      ghost var was, hashes := files, Hashes(files.Keys);
      hide HexName, Without, Hashes, Swept, PathOf;
      n := 0;
      var i := 0;
      ghost var gone: set<string> := {};
      NothingYet(was, all, keep);
      while i < |all|
        invariant 0 <= i <= |all|
        invariant gone == Swept(all[..i], keep) && n == |gone|
        invariant files == Without(was, gone)
      {
        NextSwept(all, hashes, keep, i);
        if all[i] !in keep {
          NamedBy(was.Keys, all[i]);
          OneLess(was, gone, all[i][|PREFIX|..]);
          var ok := Remove(all[i]);
          gone := gone + {all[i]};
          n := n + 1;
        }
        i := i + 1;
      }
      AllSwept(all, hashes, keep);
      StillNamed(was, gone, hex);
    }
  }

  lemma NamedBy(names: set<string>, hash: string)
    requires hash in Hashes(names)
    ensures |PREFIX| <= |hash| && var name := hash[|PREFIX|..];
            name in names && HexName(name) && hash == PREFIX + name && PathOf(hash) == Some(name)
  {
    var name :| name in names && HexName(name) && hash == PREFIX + name;
    assert hash[|PREFIX|..] == name;
  }

  lemma NothingYet(files: map<string, Bytes>, all: seq<string>, keep: set<string>)
    ensures SortedNames([]) && Hashes({}) == {}
    ensures Without(files, {}) == files && Swept(all[..0], keep) == {}
  {
  }

  lemma StillNamed(files: map<string, Bytes>, gone: set<string>, hex: Bytes -> string)
    requires forall name | name in files && HexName(name) :: hex(files[name]) == name
    ensures forall name | name in Without(files, gone) && HexName(name) :: hex(Without(files, gone)[name]) == name
  {
  }

  function Swept(hashes: seq<string>, keep: set<string>): set<string> { set h | h in hashes && h !in keep }

  lemma NextSwept(all: seq<string>, hashes: set<string>, keep: set<string>, i: nat)
    requires multiset(all) == multiset(hashes) && i < |all|
    ensures all[i] in hashes && all[i] !in Swept(all[..i], keep)
    ensures Swept(all[..i + 1], keep) == Swept(all[..i], keep) + if all[i] in keep then {} else {all[i]}
  {
    assert all[i] in multiset(all);
    Unrepeated(all, hashes, i);
    assert all[..i + 1] == all[..i] + [all[i]];
  }

  lemma AllSwept(all: seq<string>, hashes: set<string>, keep: set<string>)
    requires multiset(all) == multiset(hashes)
    ensures Swept(all[..|all|], keep) == hashes - keep
  {
    assert all[..|all|] == all;
    forall h ensures h in all <==> h in hashes { assert h in multiset(all) <==> h in multiset(hashes); }
  }

  lemma Unrepeated(all: seq<string>, names: set<string>, i: nat)
    requires multiset(all) == multiset(names) && i < |all|
    ensures all[i] !in all[..i]
  {
    var x := all[i];
    assert all == all[..i] + ([x] + all[i + 1..]);
    assert multiset(all)[x] == multiset(all[..i])[x] + multiset([x])[x] + multiset(all[i + 1..])[x];
    assert multiset(all)[x] <= 1;
    assert x in all[..i] <==> x in multiset(all[..i]);
  }

  // --- names and ranges ---

  /** Sixty-four hexadecimal digits, with "sha256:" before them or without, name that file;
      nothing else names one. */
  lemma HashesName(hash: string, hex: string)
    ensures PathOf(hash) == Some(hex) <==>
            && (hash == "sha256:" + hex || hash == hex)
            && |hex| == 64 && forall c | c in hex :: '0' <= c <= '9' || 'a' <= c <= 'f' || 'A' <= c <= 'F'
  {
    assert ("sha256:" + hex)[7..] == hex;
    if |hex| == 64 && "sha256:" <= hex { assert hex[0] == 's' && hex[0] in hex; }
  }

  /** Byte i of a range is byte offset + i of the file, as far as there is one. */
  lemma RangeReads(file: Bytes, offset: nat, length: nat)
    ensures var r := Range(file, offset, length);
            && |r| == (if offset >= |file| then 0 else if length <= |file| - offset then length else |file| - offset)
            && forall i | 0 <= i < |r| :: r[i] == file[offset + i]
  {
  }
}
