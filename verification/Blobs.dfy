/** The content-addressed directory under concurrent writers that may crash at any
    point: names, inodes and the writers that hold them open. */
module Blobs {
  type Bytes = seq<bv8>
  type Hash = string
  type Pid = nat

  /** A finished file is named by its hash alone, a temporary one by hash and pid. */
  datatype FileName = Final(hash: Hash) | Temp(hash: Hash, pid: Pid)

  /** A put under way: it holds `ino` open and has written `done` bytes there. */
  datatype Writer = Writer(pid: Pid, hash: Hash, bytes: Bytes, ino: nat, done: nat)

  datatype Dir = Dir(names: map<FileName, nat>, files: seq<Bytes>, writers: map<nat, Writer>)

  datatype Step =
    | Begin(id: nat, pid: Pid, hash: Hash, bytes: Bytes) // found missing some time ago: create the temp file
    | Write(id: nat, n: nat) // the next n bytes reach the file
    | Rename(id: nat) // complete: the temp file takes the final name
    | Crash(id: nat) // the writer dies; its temp file stays
    | Remove(hash: Hash)
    | Sweep(keep: set<Hash>)

  /** Writing at an offset of an open file, as `write(2)` does. */
  function Overwrite(file: Bytes, at: nat, chunk: Bytes): Bytes {
    var zeros := if at > |file| then seq(at - |file|, i => 0) else [];
    (file + zeros)[..at] + chunk + (if at + |chunk| < |file| then file[at + |chunk|..] else [])
  }

  predicate Enabled(d: Dir, step: Step) {
    match step
    case Begin(id, _, _, _) => id !in d.writers
    case Write(id, n) => id in d.writers && d.writers[id].done + n <= |d.writers[id].bytes| && d.writers[id].ino < |d.files|
    case Rename(id) => id in d.writers && d.writers[id].done == |d.writers[id].bytes|
    case Crash(id) => id in d.writers
    case _ => true
  }

  function Created(d: Dir, id: nat, pid: Pid, hash: Hash, bytes: Bytes): Dir {
    var temp := Temp(hash, pid);
    if temp in d.names && d.names[temp] < |d.files| then
      var ino := d.names[temp];
      d.(files := d.files[ino := []], writers := d.writers[id := Writer(pid, hash, bytes, ino, 0)])
    else
      var ino := |d.files|;
      Dir(d.names[temp := ino], d.files + [[]], d.writers[id := Writer(pid, hash, bytes, ino, 0)])
  }

  function Renamed(d: Dir, id: nat): Dir
    requires id in d.writers
  {
    var w := d.writers[id];
    var temp := Temp(w.hash, w.pid);
    var names := if temp in d.names then d.names[Final(w.hash) := d.names[temp]] - {temp} else d.names;
    d.(names := names, writers := d.writers - {id})
  }

  function Unlinked(names: map<FileName, nat>, gone: Hash -> bool): map<FileName, nat> {
    map f | f in names && !(f.Final? && gone(f.hash)) :: names[f]
  }

  function Next(d: Dir, step: Step): Dir
    requires Enabled(d, step)
  {
    match step
    case Begin(id, pid, hash, bytes) => Created(d, id, pid, hash, bytes)
    case Write(id, n) =>
      var w := d.writers[id];
      d.(files := d.files[w.ino := Overwrite(d.files[w.ino], w.done, w.bytes[w.done..w.done + n])],
         writers := d.writers[id := w.(done := w.done + n)])
    case Rename(id) => Renamed(d, id)
    case Crash(id) => d.(writers := d.writers - {id})
    case Remove(hash) => d.(names := Unlinked(d.names, h => h == hash))
    case Sweep(keep) => d.(names := Unlinked(d.names, h => h !in keep))
  }

  ghost predicate CanRun(d: Dir, steps: seq<Step>)
    decreases |steps|
  {
    steps == [] || (Enabled(d, steps[0]) && CanRun(Next(d, steps[0]), steps[1..]))
  }

  ghost function Run(d: Dir, steps: seq<Step>): Dir
    requires CanRun(d, steps)
    decreases |steps|
  {
    if steps == [] then d else Run(Next(d, steps[0]), steps[1..])
  }

  const EMPTY := Dir(map[], [], map[])

  // --- the guarantee ---

  /** Every finished file is named by the hash of its complete bytes. */
  ghost predicate Addressed(d: Dir, h: Bytes -> Hash) {
    forall name | name in d.names && name.Final? :: d.names[name] < |d.files| && h(d.files[d.names[name]]) == name.hash
  }

  /** A put names its file by the hash of what it writes, and no two puts under way
      share both hash and pid: two of one process write different bytes. */
  ghost predicate Fair(d: Dir, step: Step, h: Bytes -> Hash) {
    step.Begin? ==>
      step.hash == h(step.bytes) && forall id | id in d.writers :: TempOf(d.writers[id]) != Temp(step.hash, step.pid)
  }

  function TempOf(w: Writer): FileName { Temp(w.hash, w.pid) }

  ghost predicate FairRun(d: Dir, steps: seq<Step>, h: Bytes -> Hash)
    requires CanRun(d, steps)
    decreases |steps|
  {
    steps == [] || (Fair(d, steps[0], h) && FairRun(Next(d, steps[0]), steps[1..], h))
  }

  ghost predicate NamesOk(d: Dir) {
    && (forall f | f in d.names :: d.names[f] < |d.files|)
    && (forall f, g | f in d.names && g in d.names && f != g :: d.names[f] != d.names[g])
  }

  /** A writer's temp file is its alone and holds the bytes written so far. */
  predicate WriterOk(d: Dir, w: Writer, h: Bytes -> Hash) {
    && Temp(w.hash, w.pid) in d.names && d.names[Temp(w.hash, w.pid)] == w.ino < |d.files|
    && w.done <= |w.bytes| && d.files[w.ino] == w.bytes[..w.done] && h(w.bytes) == w.hash
  }

  ghost predicate WritersOk(d: Dir, h: Bytes -> Hash) {
    && (forall id | id in d.writers :: WriterOk(d, d.writers[id], h))
    && (forall i, j | i in d.writers && j in d.writers && i != j :: TempOf(d.writers[i]) != TempOf(d.writers[j]))
  }

  ghost predicate Inv(d: Dir, h: Bytes -> Hash) { Addressed(d, h) && NamesOk(d) && WritersOk(d, h) }

  /** The writer begun, and every other one. */
  lemma BeginKeepsWriter(d: Dir, step: Step, h: Bytes -> Hash, id: nat)
    requires NamesOk(d) && step.Begin? && Enabled(d, step) && Fair(d, step, h)
    requires id in Next(d, step).writers && (id != step.id ==> WriterOk(d, d.writers[id], h))
    ensures WriterOk(Next(d, step), Next(d, step).writers[id], h)
  {
    if id != step.id {
      assert Temp(d.writers[id].hash, d.writers[id].pid) != Temp(step.hash, step.pid);
    }
  }

  lemma BeginKeepsInv(d: Dir, step: Step, h: Bytes -> Hash)
    requires Inv(d, h) && step.Begin? && Enabled(d, step) && Fair(d, step, h)
    ensures Inv(Next(d, step), h)
  {
    hide WriterOk;
    var t := Next(d, step);
    forall id | id in t.writers ensures WriterOk(t, t.writers[id], h) {
      BeginKeepsWriter(d, step, h, id);
    }
  }

  lemma WriteKeepsInv(d: Dir, step: Step, h: Bytes -> Hash)
    requires Inv(d, h) && step.Write? && Enabled(d, step)
    ensures Inv(Next(d, step), h)
  {
    var t := Next(d, step);
    var w := d.writers[step.id];
    assert WriterOk(d, w, h);
    assert Overwrite(w.bytes[..w.done], w.done, w.bytes[w.done..w.done + step.n]) == w.bytes[..w.done + step.n];
    forall id | id in t.writers ensures WriterOk(t, t.writers[id], h) {
      if id != step.id {
        assert WriterOk(d, d.writers[id], h);
        assert Temp(d.writers[id].hash, d.writers[id].pid) != Temp(w.hash, w.pid);
      }
    }
    forall name | name in t.names && name.Final? ensures h(t.files[t.names[name]]) == name.hash {
      assert name != Temp(w.hash, w.pid);
    }
  }

  lemma RenameKeepsInv(d: Dir, step: Step, h: Bytes -> Hash)
    requires Inv(d, h) && step.Rename? && Enabled(d, step)
    ensures Inv(Next(d, step), h)
  {
    var t := Next(d, step);
    var w := d.writers[step.id];
    assert WriterOk(d, w, h) && w.bytes[..w.done] == w.bytes;
    forall id | id in t.writers ensures WriterOk(t, t.writers[id], h) {
      assert WriterOk(d, d.writers[id], h);
    }
  }

  lemma UnlinkKeepsInv(d: Dir, step: Step, h: Bytes -> Hash)
    requires Inv(d, h) && (step.Crash? || step.Remove? || step.Sweep?) && Enabled(d, step)
    ensures Inv(Next(d, step), h)
  {
    var t := Next(d, step);
    forall id | id in t.writers ensures WriterOk(t, t.writers[id], h) {
      assert WriterOk(d, d.writers[id], h);
    }
  }

  lemma NextKeepsInv(d: Dir, step: Step, h: Bytes -> Hash)
    requires Inv(d, h) && Enabled(d, step) && Fair(d, step, h)
    ensures Inv(Next(d, step), h)
  {
    hide Next, Inv, Fair;
    match step
    case Begin(_, _, _, _) => BeginKeepsInv(d, step, h);
    case Write(_, _) => WriteKeepsInv(d, step, h);
    case Rename(_) => RenameKeepsInv(d, step, h);
    case _ => UnlinkKeepsInv(d, step, h);
  }

  lemma {:induction false} RunKeepsInv(d: Dir, steps: seq<Step>, h: Bytes -> Hash)
    requires Inv(d, h) && CanRun(d, steps) && FairRun(d, steps, h)
    ensures Inv(Run(d, steps), h)
    decreases |steps|
  {
    hide Next, Inv;
    if steps != [] {
      NextKeepsInv(d, steps[0], h);
      RunKeepsInv(Next(d, steps[0]), steps[1..], h);
    }
  }

  /** Whatever writers of distinct temp files do, in whatever order and wherever they
      die -- whoever else renamed since they found the file missing --, every finished
      file holds exactly the bytes its name is the hash of. */
  lemma FilesAreTheirHash(steps: seq<Step>, h: Bytes -> Hash)
    requires CanRun(EMPTY, steps) && FairRun(EMPTY, steps, h)
    ensures Addressed(Run(EMPTY, steps), h)
  {
    RunKeepsInv(EMPTY, steps, h);
  }

  /** A put that gets to its rename leaves its file, under its hash. */
  lemma PutDelivers(d: Dir, id: nat, h: Bytes -> Hash)
    requires Inv(d, h) && Enabled(d, Rename(id))
    ensures var w, t := d.writers[id], Next(d, Rename(id));
            Final(w.hash) in t.names && t.names[Final(w.hash)] < |t.files| && t.files[t.names[Final(w.hash)]] == w.bytes
  {
    var w := d.writers[id];
    assert WriterOk(d, w, h) && w.bytes[..w.done] == w.bytes;
  }

  /** A sweep unlinks exactly the finished files not kept; a put under way is not disturbed. */
  lemma SweepIsExact(d: Dir, keep: set<Hash>, f: FileName)
    ensures var t := Next(d, Sweep(keep));
            (f in t.names <==> f in d.names && (f.Final? ==> f.hash in keep)) &&
            (f in t.names ==> t.names[f] == d.names[f]) && t.files == d.files && t.writers == d.writers
  {
    hide Overwrite;
  }

  /** Distinct temp files are needed.  Whatever state fair puts have led to and whichever
      put is under way there: let one more start with its hash and pid, and the two have a
      run that leaves any proper prefix of the bytes under the final name -- a wrong file,
      when that prefix hashes otherwise. */
  lemma SharedTempCorrupts(d: Dir, id: nat, again: Step, m: nat, h: Bytes -> Hash)
    requires Inv(d, h) && id in d.writers && again.Begin? && Enabled(d, again)
    requires TempOf(d.writers[id]) == Temp(again.hash, again.pid) && m < |again.bytes|
    ensures var steps := [Write(id, |d.writers[id].bytes| - d.writers[id].done), again, Write(again.id, m), Rename(id)];
            && CanRun(d, steps)
            && LeavesFile(Run(d, steps), again.hash, again.bytes[..m])
            && (h(again.bytes[..m]) != again.hash ==> !Addressed(Run(d, steps), h))
  {
    hide Next, Addressed, Overwrite, CanRun, Run;
    var w := d.writers[id];
    var first, third, last := Write(id, |w.bytes| - w.done), Write(again.id, m), Rename(id);
    assert WriterOk(d, w, h);
    WriteKeepsInv(d, first, h);
    var d1 := Next(d, first);
    WrittenWhole(d, id, h);
    Truncated(d1, id, again, h);
    var d2 := Next(d1, again);
    RewrittenAndRenamed(d2, id, again, m);
    ThreeSteps(d1, again, third, last);
    var steps := [first, again, third, last];
    assert steps[1..] == [again, third, last];
    assert CanRun(d, steps) && Run(d, steps) == Run(d1, steps[1..]) by { FirstStep(d, steps); }
    FoundWrong(Run(d, steps), again.hash, again.bytes[..m], h);
  }

  predicate LeavesFile(d: Dir, hash: Hash, bytes: Bytes) {
    Final(hash) in d.names && d.names[Final(hash)] < |d.files| && d.files[d.names[Final(hash)]] == bytes
  }

  lemma FoundWrong(d: Dir, hash: Hash, bytes: Bytes, h: Bytes -> Hash)
    requires LeavesFile(d, hash, bytes)
    ensures h(bytes) != hash ==> !Addressed(d, h)
  {
  }

  lemma WrittenWhole(d: Dir, id: nat, h: Bytes -> Hash)
    requires Inv(d, h) && id in d.writers
    ensures var w := d.writers[id]; var step := Write(id, |w.bytes| - w.done);
            Enabled(d, step) && id in Next(d, step).writers && Next(d, step).writers[id] == w.(done := |w.bytes|)
            && Next(d, step).writers.Keys == d.writers.Keys
  {
    assert WriterOk(d, d.writers[id], h);
  }

  /** The second put opens the same inode and empties it. */
  lemma Truncated(d: Dir, id: nat, again: Step, h: Bytes -> Hash)
    requires Inv(d, h) && id in d.writers && again.Begin? && Enabled(d, again)
    requires TempOf(d.writers[id]) == Temp(again.hash, again.pid)
    ensures var w, t := d.writers[id], Next(d, again);
            && t.names == d.names && again.id in t.writers && id in t.writers && t.writers[id] == w && id != again.id
            && t.writers[again.id] == Writer(again.pid, again.hash, again.bytes, w.ino, 0)
            && TempOf(w) in t.names && t.names[TempOf(w)] == w.ino < |t.files| && t.files[w.ino] == []
  {
    assert WriterOk(d, d.writers[id], h);
  }

  lemma RewrittenAndRenamed(d: Dir, id: nat, again: Step, m: nat)
    requires again.Begin? && again.id in d.writers && id in d.writers && id != again.id && m < |again.bytes|
    requires var w := d.writers[id];
             && w.done == |w.bytes| && TempOf(w) == Temp(again.hash, again.pid)
             && d.writers[again.id] == Writer(again.pid, again.hash, again.bytes, w.ino, 0)
             && TempOf(w) in d.names && d.names[TempOf(w)] == w.ino < |d.files| && d.files[w.ino] == []
    ensures Enabled(d, Write(again.id, m)) && Enabled(Next(d, Write(again.id, m)), Rename(id))
    ensures LeavesFile(Next(Next(d, Write(again.id, m)), Rename(id)), again.hash, again.bytes[..m])
  {
    assert Overwrite([], 0, again.bytes[0..m]) == again.bytes[..m];
  }

  lemma FirstStep(d: Dir, steps: seq<Step>)
    requires steps != [] && Enabled(d, steps[0]) && CanRun(Next(d, steps[0]), steps[1..])
    ensures CanRun(d, steps) && Run(d, steps) == Run(Next(d, steps[0]), steps[1..])
  {
  }

  lemma ThreeSteps(d: Dir, a: Step, b: Step, c: Step)
    requires Enabled(d, a) && Enabled(Next(d, a), b) && Enabled(Next(Next(d, a), b), c)
    ensures CanRun(d, [a, b, c])
    ensures Run(d, [a, b, c]) == Next(Next(Next(d, a), b), c)
  {
    hide Next, Enabled;
    var d1, d2 := Next(d, a), Next(Next(d, a), b);
    assert [a, b, c][1..] == [b, c] && [b, c][1..] == [c] && [c][1..] == [];
    assert CanRun(Next(d2, c), []) && CanRun(d2, [c]) && CanRun(d1, [b, c]);
    assert Run(d, [a, b, c]) == Run(d1, [b, c]) == Run(d2, [c]) == Run(Next(d2, c), []);
  }

  /** Copying a file in hashes it in one pass and copies it in another: the stored file
      is its name's exactly when the source still hashes the same at the copy. */
  lemma CopiedFileIsItsHash(hashed: Bytes, copied: Bytes, pid: Pid, h: Bytes -> Hash)
    ensures var steps := [Begin(1, pid, h(hashed), copied), Write(1, |copied|), Rename(1)];
            CanRun(EMPTY, steps) && (Addressed(Run(EMPTY, steps), h) <==> h(copied) == h(hashed))
  {
    var hash := h(hashed);
    var temp := Temp(hash, pid);
    var w := Writer(pid, hash, copied, 0, |copied|);
    var a, b, c := Begin(1, pid, hash, copied), Write(1, |copied|), Rename(1);
    var d1 := Next(EMPTY, a);
    assert d1 == Dir(map[temp := 0], [[]], map[1 := w.(done := 0)]);
    var d2 := Next(d1, b);
    assert Overwrite([], 0, copied[0..|copied|]) == copied;
    assert d2 == Dir(map[temp := 0], [copied], map[1 := w]);
    var d3 := Next(d2, c);
    assert d3 == Dir(map[Final(hash) := 0], [copied], map[]);
    ThreeSteps(EMPTY, a, b, c);
    assert Final(hash) in d3.names && d3.names[Final(hash)] == 0;
  }
}
