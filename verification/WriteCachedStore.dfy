/**
 The write-back store without a put queue, as one thread runs it: reads look at the dirty
 chunks first, writes go to them, eviction and flush put them to the store below.
 */
module WriteCachedStore {
  import opened Volume
  import opened MemoryStore
  import opened WriteBackState
  import opened WriteBackInv
  import opened WriteCache
  import opened CachedStore

  // ------------------------------------------------- dirty chunks over a flat array

  /** What an initiator sees: dirty chunks over the bytes of the store below. */
  ghost function Seen(dirty: Image, flat: Bytes, cs: nat): (s: Bytes)
    requires cs > 0 && Whole(dirty, cs)
    ensures |s| == |flat|
  {
    seq(|flat|, i requires 0 <= i < |flat| => if i / cs in dirty then dirty[i / cs][i % cs] else flat[i])
  }

  ghost function SeenChunk(dirty: Image, flat: Bytes, cs: nat, idx: nat): Bytes {
    if idx in dirty then dirty[idx] else Padded(flat, cs, idx)
  }

  lemma SeenByte(dirty: Image, flat: Bytes, cs: nat, idx: nat, k: nat)
    requires cs > 0 && Whole(dirty, cs) && k < cs && idx * cs + k < |flat|
    ensures Seen(dirty, flat, cs)[idx * cs + k] == SeenChunk(dirty, flat, cs, idx)[k]
  {
    DivMod(cs, idx, k);
  }

  /** A patched chunk made dirty is the patch on what was seen. */
  lemma SeenInsert(dirty: Image, flat: Bytes, cs: nat, c: Cursor, patch: Bytes)
    requires cs > 0 && Whole(dirty, cs) && |patch| == c.take && c.within + c.take <= cs && c.idx * cs + c.within + c.take <= |flat|
    ensures var d := dirty[c.idx := Splice(SeenChunk(dirty, flat, cs, c.idx), c.within, patch)];
            Whole(d, cs) && Seen(d, flat, cs) == Splice(Seen(dirty, flat, cs), c.idx * cs + c.within, patch)
  {
    var at, was := c.idx * cs + c.within, Seen(dirty, flat, cs);
    var d := dirty[c.idx := Splice(SeenChunk(dirty, flat, cs, c.idx), c.within, patch)];
    var now := Seen(d, flat, cs);
    forall i | 0 <= i < |flat| ensures now[i] == Splice(was, at, patch)[i] {
      InsertByte(dirty, d, flat, cs, c, patch, i);
      SpliceByte(was, at, patch, i);
    }
  }

  lemma NotPatched(cs: nat, c: Cursor, i: nat)
    requires cs > 0 && c.within + c.take <= cs && i / cs != c.idx
    ensures !(c.idx * cs + c.within <= i < c.idx * cs + c.within + c.take)
  {
    Position(cs, i);
    if i / cs < c.idx {
      NextChunk(cs, i / cs, c.idx);
    } else {
      NextChunk(cs, c.idx, i / cs);
    }
  }

  lemma InsertByte(dirty: Image, d: Image, flat: Bytes, cs: nat, c: Cursor, patch: Bytes, i: nat)
    requires cs > 0 && Whole(dirty, cs) && Whole(d, cs) && |patch| == c.take && c.within + c.take <= cs && i < |flat|
    requires d == dirty[c.idx := Splice(SeenChunk(dirty, flat, cs, c.idx), c.within, patch)]
    ensures var at := c.idx * cs + c.within;
            Seen(d, flat, cs)[i] == if at <= i < at + c.take then patch[i - at] else Seen(dirty, flat, cs)[i]
  {
    if i / cs == c.idx {
      Position(cs, i);
      PatchedByte(dirty, d, flat, cs, c, patch, i % cs);
    } else {
      NotPatched(cs, c, i);
    }
  }

  lemma PatchedByte(dirty: Image, d: Image, flat: Bytes, cs: nat, c: Cursor, patch: Bytes, k: nat)
    requires cs > 0 && Whole(dirty, cs) && Whole(d, cs) && |patch| == c.take && c.within + c.take <= cs
    requires k < cs && c.idx * cs + k < |flat|
    requires d == dirty[c.idx := Splice(SeenChunk(dirty, flat, cs, c.idx), c.within, patch)]
    ensures Seen(d, flat, cs)[c.idx * cs + k]
         == if c.within <= k < c.within + c.take then patch[k - c.within] else Seen(dirty, flat, cs)[c.idx * cs + k]
  {
    SeenByte(dirty, flat, cs, c.idx, k);
    SeenByte(d, flat, cs, c.idx, k);
    SpliceByte(SeenChunk(dirty, flat, cs, c.idx), c.within, patch, k);
  }

  /** A chunk spliced in at its place changes no byte of another chunk. */
  lemma OtherChunk(flat: Bytes, cs: nat, idx: nat, x: Bytes, i: nat)
    requires cs > 0 && |x| <= cs && idx * cs + |x| <= |flat| && i < |flat| && i / cs != idx
    ensures Splice(flat, idx * cs, x)[i] == flat[i]
  {
    NotPatched(cs, Cursor(idx, 0, |x|), i);
    SpliceByte(flat, idx * cs, x, i);
  }

  /** A dirty chunk put below and dropped is seen as before. */
  lemma SeenEvict(dirty: Image, flat: Bytes, cs: nat, idx: nat, n: nat)
    requires cs > 0 && Whole(dirty, cs) && idx in dirty && idx * cs < |flat| && n == Min(|flat| - idx * cs, cs)
    ensures Seen(dirty - {idx}, Splice(flat, idx * cs, dirty[idx][..n]), cs) == Seen(dirty, flat, cs)
  {
    var below := Splice(flat, idx * cs, dirty[idx][..n]);
    var a, b := Seen(dirty - {idx}, below, cs), Seen(dirty, flat, cs);
    forall i | 0 <= i < |flat| ensures a[i] == b[i] {
      Position(cs, i);
      if i / cs == idx {
        SpliceByte(flat, idx * cs, dirty[idx][..n], i);
      } else {
        OtherChunk(flat, cs, idx, dirty[idx][..n], i);
      }
    }
  }

  /** A put below a dirty chunk is not seen. */
  lemma SeenHidden(dirty: Image, flat: Bytes, cs: nat, idx: nat, x: Bytes)
    requires cs > 0 && Whole(dirty, cs) && idx in dirty && |x| <= cs && idx * cs + |x| <= |flat|
    ensures Seen(dirty, Splice(flat, idx * cs, x), cs) == Seen(dirty, flat, cs)
  {
    var a, b := Seen(dirty, Splice(flat, idx * cs, x), cs), Seen(dirty, flat, cs);
    forall i | 0 <= i < |flat| ensures a[i] == b[i] {
      if i / cs != idx {
        OtherChunk(flat, cs, idx, x, i);
      }
    }
  }

  /** A dirty chunk past the capacity is not seen. */
  lemma SeenPast(dirty: Image, flat: Bytes, cs: nat, idx: nat)
    requires cs > 0 && Whole(dirty, cs) && idx * cs >= |flat|
    ensures Seen(dirty - {idx}, flat, cs) == Seen(dirty, flat, cs)
  {
    forall i | 0 <= i < |flat| ensures i / cs != idx {
      Position(cs, i);
    }
  }

  lemma NothingDirty(flat: Bytes, cs: nat)
    requires cs > 0
    ensures Seen(map[], flat, cs) == flat
  {
  }

  ghost function DataOf(chunks: map<nat, DirtyChunk>): Image {
    map i | i in chunks :: chunks[i].data
  }

  /** The bytes below after a whole chunk was put, clamped to the capacity. */
  ghost function PutBelow(flat: Bytes, cs: nat, idx: nat, data: Bytes): Bytes
    requires |data| == cs
  {
    if idx * cs < |flat| then Splice(flat, idx * cs, data[..Min(|flat| - idx * cs, cs)]) else flat
  }

  /** Putting a dirty chunk changes nothing that is seen, whether it then stays dirty or not. */
  lemma SeenPut(dirty: Image, flat: Bytes, cs: nat, idx: nat)
    requires cs > 0 && Whole(dirty, cs) && idx in dirty
    ensures |PutBelow(flat, cs, idx, dirty[idx])| == |flat|
    ensures Seen(dirty, PutBelow(flat, cs, idx, dirty[idx]), cs) == Seen(dirty, flat, cs)
    ensures Seen(dirty - {idx}, PutBelow(flat, cs, idx, dirty[idx]), cs) == Seen(dirty, flat, cs)
  {
    if idx * cs < |flat| {
      var n := Min(|flat| - idx * cs, cs);
      SeenHidden(dirty, flat, cs, idx, dirty[idx][..n]);
      SeenEvict(dirty, flat, cs, idx, n);
    } else {
      SeenPast(dirty, flat, cs, idx);
    }
  }

  /** What becomes of an I/O call: done, not done, or done although an error is reported. */
  datatype Io = Fine | Lost | Landed

  /** Every chunk of `held` is in its file. */
  ghost predicate Filed(held: Image, files: Image) {
    forall i :: i in held ==> i in files && files[i] == held[i]
  }

  class WriteCachedStore {
    const inner: Store
    const dirty: DirtyState
    const cacheMax: nat
    const disk: bool
    /** The chunk files of the disk cache. */
    var files: Image
    /** What becomes of the next I/O calls; after these all goes well. */
    var io: seq<Io>

    ghost predicate Valid()
      reads this, inner, dirty
    {
      && inner.Valid() && dirty.Valid() && dirty.Abs().Counted()
      && Whole(DataOf(dirty.chunks), inner.chunkSize)
      && (disk ==> Filed(DataOf(dirty.chunks), files))
    }

    ghost function Content(): Bytes
      requires Valid()
      reads this, inner, dirty
    {
      Seen(DataOf(dirty.chunks), inner.Content(), inner.chunkSize)
    }

    constructor (inner: Store, cacheMax: nat, disk: bool)
      requires inner.Valid()
      ensures Valid() && fresh(dirty) && this.inner == inner && this.cacheMax == cacheMax && this.disk == disk
      ensures Content() == inner.Content()
    {
      this.inner, this.cacheMax, this.disk, this.files, this.io := inner, cacheMax, disk, map[], [];
      this.dirty := new DirtyState();
      new;
      NothingHeld();
      assert DataOf(dirty.chunks) == map[];
      NothingDirty(inner.Content(), inner.chunkSize);
    }

    method Call() returns (fate: Io)
      modifies this`io
      ensures old(io) == [] ==> fate == Fine && io == []
    {
      fate := if io == [] then Fine else io[0];
      io := if io == [] then [] else io[1..];
    }

    /** Copies one chunk's share of a read, from the dirty chunk or from below. */
    method ReadPiece(c: Cursor, at: nat, buf: array<Byte>, n: nat) returns (ok: bool)
      requires Valid() && c.idx * inner.chunkSize + c.within == at && c.within + c.take <= inner.chunkSize
      requires n + c.take <= buf.Length && at + c.take <= inner.capacity
      modifies buf, this`io
      ensures forall k :: 0 <= k < n ==> buf[k] == old(buf[k])
      ensures ok ==> forall k :: n <= k < n + c.take ==> buf[k] == Content()[at + (k - n)]
      ensures old(io) == [] ==> ok && io == []
    {
      ghost var d, flat := DataOf(dirty.chunks), inner.Content();
      ok := true;
      if c.idx in dirty.chunks {
        var chunk := dirty.chunks[c.idx].data;
        assert chunk == d[c.idx];
        forall k | n <= k < n + c.take {
          buf[k] := chunk[c.within + (k - n)];
        }
      } else {
        var fate := Call();
        if fate != Fine {
          return false;
        }
        ghost var before := buf[..];
        var r := inner.ReadAt(at, buf, n, n + c.take);
        assert MemoryStore.Wrote(before, buf[..], n, flat[at..at + c.take]);
      }
      forall k | n <= k < n + c.take ensures buf[k] == Content()[at + (k - n)] {
        SeenUnder(d, flat, inner.chunkSize, c, at, k - n);
      }
    }

    method ReadAt(offset: nat, buf: array<Byte>) returns (r: Outcome<()>)
      requires Valid()
      modifies buf, this`io
      ensures CheckRange(inner.capacity, offset, buf.Length).Err? ==> r == CheckRange(inner.capacity, offset, buf.Length)
      ensures old(io) == [] ==> r == CheckRange(inner.capacity, offset, buf.Length)
      ensures r.Ok? ==> offset + buf.Length <= inner.capacity && buf[..] == Content()[offset..offset + buf.Length]
    {
      r := CheckRange(inner.capacity, offset, buf.Length);
      if r.Err? {
        return;
      }
      ghost var content := Content();
      var n: nat := 0;
      while n < buf.Length
        invariant n <= buf.Length && (old(io) == [] ==> io == [])
        invariant forall k :: 0 <= k < n ==> buf[k] == content[offset + k]
      {
        var c := At(inner.chunkSize, offset, buf.Length, n);
        var ok := ReadPiece(c, offset + n, buf, n);
        if !ok {
          return Err(S3Error);
        }
        n := n + c.take;
      }
    }

    /** The chunk to patch: the dirty one, or a whole chunk read from below. */
    method LoadForWrite(idx: nat) returns (r: Option<Bytes>)
      requires Valid() && idx * inner.chunkSize < inner.capacity
      modifies this`io
      ensures r.Some? ==> r.value == SeenChunk(DataOf(dirty.chunks), inner.Content(), inner.chunkSize, idx)
      ensures old(io) == [] ==> r.Some? && io == []
    {
      if idx in dirty.chunks {
        return Some(dirty.chunks[idx].data);
      }
      var fate := Call();
      if fate != Fine {
        return None;
      }
      var cs, offset := inner.chunkSize, idx * inner.chunkSize;
      var buf := new Byte[cs](_ => 0);
      var valid := Min(inner.capacity - offset, cs);
      var read := inner.ReadAt(offset, buf, 0, valid);
      r := Some(buf[..]);
    }

    /** The file of the chunk, written aside and renamed: all of it or nothing. */
    method Persist(idx: nat, chunk: Bytes) returns (ok: bool)
      modifies this`files, this`io
      ensures files == if ok && disk then old(files)[idx := chunk] else old(files)
      ensures old(io) == [] ==> ok && io == []
    {
      if !disk {
        return true;
      }
      var fate := Call();
      ok := fate == Fine;
      if ok {
        files := files[idx := chunk];
      }
    }

    /** Removes the file of a chunk. */
    method RemoveFile(idx: nat) returns (ok: bool)
      modifies this`files, this`io
      ensures files == old(files) || files == old(files) - {idx}
      ensures old(io) == [] ==> ok && io == []
    {
      if !disk {
        return true;
      }
      var fate := Call();
      ok := fate == Fine;
      if fate != Lost {
        files := files - {idx};
      }
    }

    /** One chunk of a write: load, patch, persist, insert. */
    method WritePiece(c: Cursor, patch: Bytes, now: nat) returns (ok: bool)
      requires Valid() && |patch| == c.take > 0 && c.within + c.take <= inner.chunkSize
      requires c.idx * inner.chunkSize + c.within + c.take <= inner.capacity
      modifies this`files, this`io, dirty
      ensures Valid()
      ensures Content() == if ok then Splice(old(Content()), c.idx * inner.chunkSize + c.within, patch) else old(Content())
      ensures old(io) == [] ==> ok && io == []
    {
      ghost var d, flat, cs := DataOf(dirty.chunks), inner.Content(), inner.chunkSize;
      SeenInsert(d, flat, cs, c, patch);
      DirtyInsertCounted(dirty.Abs(), c.idx, Splice(SeenChunk(d, flat, cs, c.idx), c.within, patch));
      var found := LoadForWrite(c.idx);
      if found.None? {
        return false;
      }
      var chunk := Splice(found.value, c.within, patch);
      ok := Persist(c.idx, chunk);
      if ok {
        dirty.Insert(c.idx, chunk, now);
        InsertData(dirty, old(dirty.Abs()), d, c.idx, chunk);
      }
    }

    /** Puts a whole chunk below, clamped to the capacity. */
    method WriteInner(idx: nat, data: Bytes) returns (ok: bool)
      requires inner.Valid() && |data| == inner.chunkSize
      modifies this`io, inner`chunks
      ensures inner.Valid()
      ensures inner.Content() == old(inner.Content())
              || inner.Content() == PutBelow(old(inner.Content()), inner.chunkSize, idx, data)
      ensures ok ==> inner.Content() == PutBelow(old(inner.Content()), inner.chunkSize, idx, data)
      ensures old(io) == [] ==> ok && io == []
    {
      var offset := idx * inner.chunkSize;
      if offset >= inner.capacity {
        return true;
      }
      var fate := Call();
      ok := fate == Fine;
      if fate != Lost {
        var valid := Min(inner.capacity - offset, |data|);
        var r := inner.WriteAt(offset, data[..valid]);
      }
    }

    /** Puts a chunk below, drops it and removes its file; what is seen stays, whatever fails. */
    method EvictOne(idx: nat) returns (ok: bool)
      requires Valid() && idx in dirty.chunks
      modifies this`files, this`io, dirty, inner`chunks
      ensures Valid() && Content() == old(Content()) && inner.capacity == old(inner.capacity)
      ensures ok ==> |dirty.chunks| < |old(dirty.chunks)|
      ensures old(io) == [] ==> ok && io == []
    {
      ghost var d, flat, cs := DataOf(dirty.chunks), inner.Content(), inner.chunkSize;
      var data := dirty.chunks[idx].data;
      assert data == d[idx];
      SeenPut(d, flat, cs, idx);
      ok := WriteInner(idx, data);
      if !ok {
        return;
      }
      Drop(idx);
      ok := RemoveFile(idx);
    }

    /** Takes one chunk out of the dirty map. */
    method Drop(idx: nat)
      requires dirty.Valid() && dirty.Abs().Counted() && idx in dirty.chunks
      modifies dirty
      ensures dirty.Valid() && dirty.Abs().Counted()
      ensures DataOf(dirty.chunks) == old(DataOf(dirty.chunks)) - {idx} && |dirty.chunks| < |old(dirty.chunks)|
    {
      DirtyRemoveCounted(dirty.Abs(), idx);
      var gone := dirty.Remove(idx);
      assert old(dirty.chunks) == (old(dirty.chunks) - {idx})[idx := old(dirty.chunks)[idx]];
    }

    /** Evicts until the dirty bytes are within a budget that is not zero, or a call fails. */
    method EvictDirect() returns (ok: bool)
      requires Valid()
      modifies this`files, this`io, dirty, inner`chunks
      ensures Valid() && Content() == old(Content())
      ensures ok && cacheMax > 0 ==> dirty.usedBytes <= cacheMax
      ensures old(io) == [] ==> ok && io == []
    {
      ok := true;
      if cacheMax == 0 {
        return;
      }
      while dirty.usedBytes > cacheMax && dirty.chunks != map[]
        invariant Valid() && Content() == old(Content()) && (old(io) == [] ==> io == [])
        decreases |dirty.chunks|
      {
        var oldest := dirty.Oldest();
        ok := EvictOne(oldest.value);
        if !ok {
          return;
        }
      }
      if dirty.chunks == map[] {
        NoneUsed(dirty.Abs());
      }
      ok := true;
    }

    /** What was seen was `was`, and then the first `n` bytes of a write were done. */
    ghost predicate Written(was: Bytes, offset: nat, data: Bytes, n: nat)
      reads this, inner, dirty
    {
      Valid() && n <= |data| && offset + |data| <= inner.capacity == |was| && Content() == Splice(was, offset, data[..n])
    }

    /** One turn of the write loop. */
    method WriteNext(c: Cursor, ghost offset: nat, data: Bytes, n: nat, now: nat, ghost was: Bytes) returns (ok: bool)
      requires Written(was, offset, data, n) && Under(c, inner.chunkSize, offset + n, |data| - n)
      modifies this`files, this`io, dirty
      ensures Written(was, offset, data, if ok then n + c.take else n)
      ensures old(io) == [] ==> ok && io == []
    {
      SpliceMore(was, offset, data, n, c.take);
      ok := WritePiece(c, data[n..n + c.take], now);
    }

    /** The chunk loop of a write. */
    method WriteChunks(offset: nat, data: Bytes, now: nat) returns (ok: bool, ghost done: nat)
      requires Valid() && offset + |data| <= inner.capacity
      modifies this`files, this`io, dirty
      ensures Written(old(Content()), offset, data, done) && (ok ==> done == |data|)
      ensures old(io) == [] ==> ok && io == []
    {
      ghost var was := Content();
      assert Splice(was, offset, data[..0]) == was;
      var n: nat := 0;
      done := 0;
      while n < |data|
        invariant n == done && Written(was, offset, data, n) && (old(io) == [] ==> io == [])
      {
        var c := At(inner.chunkSize, offset, |data|, n);
        ok := WriteNext(c, offset, data, n, now, was);
        if !ok {
          return;
        }
        n := n + c.take;
        done := n;
      }
      ok := true;
    }

    /**
     A write is a splice of what is seen, of its first `done` bytes if a call fails; one that
     returns Ok leaves the dirty bytes within budget.
     */
    method WriteAt(offset: nat, data: Bytes, now: nat) returns (r: Outcome<()>, ghost done: nat)
      requires Valid()
      modifies this`files, this`io, dirty, inner`chunks
      ensures Valid() && done <= |data|
      ensures CheckRange(inner.capacity, offset, |data|).Err? ==>
                r == CheckRange(inner.capacity, offset, |data|) && Content() == old(Content())
      ensures CheckRange(inner.capacity, offset, |data|).Ok? ==> Written(old(Content()), offset, data, done)
      ensures r.Ok? ==> done == |data| && (cacheMax > 0 ==> dirty.usedBytes <= cacheMax)
      ensures old(io) == [] ==> r == CheckRange(inner.capacity, offset, |data|)
    {
      r, done := CheckRange(inner.capacity, offset, |data|), 0;
      if r.Err? {
        return;
      }
      var ok;
      ok, done := WriteChunks(offset, data, now);
      if ok {
        ok := EvictDirect();
      }
      if !ok {
        r := Err(S3Error);
      }
    }

    /** The chunks of `held`, drained from the dirty map, are over the store below what was seen. */
    ghost predicate Drained(held: Image, was: Bytes)
      reads this, inner, dirty
    {
      && Valid() && dirty.chunks == map[] && Whole(held, inner.chunkSize)
      && Seen(held, inner.Content(), inner.chunkSize) == was && (disk ==> Filed(held, files))
    }

    /** One drained chunk: put below, then its file removed. */
    method WriteSnapshot(idx: nat, data: Bytes, ghost held: Image, ghost was: Bytes) returns (ok: bool, ghost rest: Image)
      requires Drained(held, was) && idx in held && held[idx] == data
      modifies this`files, this`io, inner`chunks
      ensures Drained(rest, was) && (rest == held || rest == held - {idx}) && (ok ==> rest == held - {idx})
      ensures old(io) == [] ==> ok && io == []
    {
      SeenPut(held, inner.Content(), inner.chunkSize, idx);
      rest := held;
      ok := WriteInner(idx, data);
      if ok {
        rest := held - {idx};
        ok := RemoveFile(idx);
      }
    }

    /**
     Empties the dirty map, then puts the chunks one by one. A flush that returns Ok leaves
     the store below with what was seen. One that fails has dropped the chunks of `lost`
     from what is seen: they are the difference, and in disk mode their files still hold them.
     */
    method Flush() returns (ok: bool, ghost lost: Image)
      requires Valid()
      modifies this`files, this`io, dirty, inner`chunks
      ensures Drained(lost, old(Content())) && Content() == inner.Content()
      ensures ok ==> lost == map[] && inner.Content() == old(Content())
      ensures old(io) == [] ==> ok
    {
      ghost var was := Content();
      var jobs := dirty.chunks;
      lost := DataOf(jobs);
      Drains();
      while jobs != map[]
        invariant Drained(lost, was) && lost == DataOf(jobs) && (old(io) == [] ==> io == [])
        decreases jobs.Keys
      {
        var idx :| idx in jobs;
        assert DataOf(jobs - {idx}) == lost - {idx};
        ok, lost := WriteSnapshot(idx, jobs[idx].data, lost, was);
        if !ok {
          NothingDirty(inner.Content(), inner.chunkSize);
          assert DataOf(dirty.chunks) == map[];
          return;
        }
        jobs := jobs - {idx};
      }
      assert lost == map[] && DataOf(dirty.chunks) == map[];
      NothingDirty(inner.Content(), inner.chunkSize);
      ok := true;
    }

    method Drains()
      requires Valid()
      modifies dirty
      ensures Drained(old(DataOf(dirty.chunks)), old(Content()))
    {
      dirty.Drain();
      NothingHeld();
      assert DataOf(dirty.chunks) == map[];
    }
  }

  lemma SeenUnder(dirty: Image, flat: Bytes, cs: nat, c: Cursor, at: nat, k: nat)
    requires cs > 0 && Whole(dirty, cs) && c.idx * cs + c.within == at && k < c.take && c.within + c.take <= cs && at + k < |flat|
    ensures Seen(dirty, flat, cs)[at + k] == if c.idx in dirty then dirty[c.idx][c.within + k] else flat[at + k]
  {
    DivMod(cs, c.idx, c.within + k);
  }

  lemma InsertData(dirty: DirtyState, was: Dirty, d: Image, idx: nat, chunk: Bytes)
    requires dirty.Valid() && dirty.Abs() == was.Insert(idx, chunk) && d == Data(was.chunks)
    ensures DataOf(dirty.chunks) == d[idx := chunk]
  {
    assert Data(dirty.Abs().chunks) == DataOf(dirty.chunks);
  }

  lemma NoneUsed(d: Dirty)
    requires d.Counted() && d.chunks == map[]
    ensures d.used == 0
  {
  }
}
