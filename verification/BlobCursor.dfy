/** The guest's file-like handle on bytes the host holds. */
module BlobCursor {
  import opened Options
  import opened BlobDir

  datatype ReadError = BlobMissing | TooLarge

  const CEILING: nat := 64 * 1024 * 1024

  /** How many bytes a read asks for. */
  function Ask(n: Option<int>, size: nat, pos: nat): nat
    requires pos <= size
  {
    var want := if n.None? || n.value < 0 then size - pos else n.value;
    Min(want, size - pos)
  }

  /** Where a seek lands: kept within the blob. */
  function Landing(pos: int, whence: int, at: nat, size: nat): nat {
    var target := if whence == 1 then pos + at else if whence == 2 then pos + size else pos;
    if target < 0 then 0 else Min(target, size)
  }

  class Blob {
    const size: nat
    var pos: nat

    ghost predicate Valid()
      reads this
    {
      pos <= size
    }

    constructor (bytes: nat)
      ensures Valid() && size == bytes && pos == 0
    {
      size := bytes;
      pos := 0;
    }

    /** `stored` is the file the host has for this hash, if it has one; the size on the
        handle is whatever the reference says. */
    method Read(stored: Option<Bytes>, n: Option<int>) returns (r: Result<Bytes, ReadError>)
      requires Valid()
      modifies this
      ensures Valid()
      ensures r == var k := Ask(n, size, old(pos));
                   if k == 0 then Ok([])
                   else if stored.None? then Err(BlobMissing)
                   else Ok(Range(stored.value, old(pos), k))
      ensures pos == old(pos) + (if r.Ok? then |r.value| else 0)
    {
      var k := Ask(n, size, pos);
      if k == 0 {
        return Ok([]);
      }
      if stored.None? {
        return Err(BlobMissing);
      }
      var data := Range(stored.value, pos, k);
      pos := pos + |data|;
      r := Ok(data);
    }

    method Seek(to: int, whence: int) returns (r: nat)
      requires Valid()
      modifies this
      ensures Valid() && r == pos == Landing(to, whence, old(pos), size)
    {
      var target := to;
      if whence == 1 {
        target := target + pos;
      } else if whence == 2 {
        target := target + size;
      }
      pos := if target < 0 then 0 else Min(target, size);
      r := pos;
    }

    /** The whole payload; the position is restored, also when the read fails. */
    method ToBytes(stored: Option<Bytes>) returns (r: Result<Bytes, ReadError>)
      requires Valid()
      modifies this
      ensures Valid() && pos == old(pos)
      ensures r == if size > CEILING then Err(TooLarge)
                   else if size == 0 then Ok([])
                   else if stored.None? then Err(BlobMissing)
                   else Ok(stored.value[..Min(size, |stored.value|)])
    {
      if size > CEILING {
        return Err(TooLarge);
      }
      var was := pos;
      pos := 0;
      r := Read(stored, Some(size));
      pos := was;
    }

    /** Reading from the start in chunks of any positive sizes until nothing comes: it
        ends, with exactly the stored bytes -- as many of them as the handle says there
        are -- and the position after the last. */
    method ReadInChunks(stored: Bytes, chunk: nat -> nat) returns (out: Bytes)
      requires Valid()
      requires forall i :: chunk(i) > 0
      modifies this
      ensures Valid() && out == stored[..Min(size, |stored|)] && pos == |out|
    {
      var start := Seek(0, 0);
      out := [];
      var i := 0;
      while true
        invariant Valid() && pos <= |stored| && out == stored[..pos]
        decreases size - pos
      {
        var r := Read(Some(stored), Some(chunk(i)));
        if r.value == [] {
          break;
        }
        out := out + r.value;
        i := i + 1;
      }
    }
  }

  // --- positions ---

  /** A read asks for the rest where it names no number or a negative one, and never for more. */
  lemma AsksFor(n: Option<int>, size: nat, pos: nat)
    requires pos <= size
    ensures n.None? || n.value < 0 || n.value >= size - pos ==> Ask(n, size, pos) == size - pos
    ensures n.Some? && 0 <= n.value < size - pos ==> Ask(n, size, pos) == n.value
  {
  }

  /** A seek counts from the start, from where it is (1), or back from the end (2), and stops
      at either end of the blob. */
  lemma LandsAt(pos: int, whence: int, at: nat, size: nat)
    ensures var target := if whence == 1 then at + pos else if whence == 2 then size + pos else pos;
            && (target < 0 ==> Landing(pos, whence, at, size) == 0)
            && (target > size ==> Landing(pos, whence, at, size) == size)
            && (0 <= target <= size ==> Landing(pos, whence, at, size) == target)
  {
  }
}
