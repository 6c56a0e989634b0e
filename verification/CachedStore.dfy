/** A write-through view of a store through the shared chunk pool, and several of them on one pool. */
module CachedStore {
  import opened Volume
  import opened ChunkCache
  import opened MemoryStore

  // ------------------------------------------------ chunks of a flat array

  /** The byte at `k` of the window of `flat` that starts at `start`. */
  function ByteAt(flat: Bytes, start: nat, k: nat): Byte {
    if start + k < |flat| then flat[start + k] else 0
  }

  /** Chunk `idx` of a flat array, with zeros where the array has ended. */
  function Padded(flat: Bytes, cs: nat, idx: nat): (r: Bytes)
    ensures |r| == cs
  {
    seq(cs, k requires 0 <= k < cs => ByteAt(flat, idx * cs, k))
  }

  /** Every cached chunk of the volume is what the flat array holds there. */
  ghost predicate Coherent(entries: Entries, volume: string, flat: Bytes, cs: nat) {
    forall k :: k in entries && k.volume == volume ==>
      k.idx * cs < |flat| && entries[k].data == Padded(flat, cs, k.idx)
  }

  /** Entries of other volumes may go but do not change. */
  ghost predicate OthersKept(was: Entries, now: Entries, volume: string) {
    forall k :: k in now && k.volume != volume ==> k in was && now[k].data == was[k].data
  }

  lemma OthersCoherent(was: Entries, now: Entries, volume: string, other: string, flat: Bytes, cs: nat)
    requires OthersKept(was, now, volume) && other != volume
    requires Coherent(was, other, flat, cs)
    ensures Coherent(now, other, flat, cs)
  {
  }

  lemma SpliceByte(b: Bytes, at: nat, patch: Bytes, i: nat)
    requires at + |patch| <= |b| && i < |b|
    ensures Splice(b, at, patch)[i] == if at <= i < at + |patch| then patch[i - at] else b[i]
  {
  }

  lemma ByteAtSplice(flat: Bytes, start: nat, within: nat, patch: Bytes, k: nat)
    requires start + within + |patch| <= |flat|
    ensures ByteAt(Splice(flat, start + within, patch), start, k)
         == if within <= k < within + |patch| then patch[k - within] else ByteAt(flat, start, k)
  {
    if start + k < |flat| {
      SpliceByte(flat, start + within, patch, start + k);
    }
  }

  lemma SplicedFrom(flat: Bytes, cs: nat, start: nat, within: nat, patch: Bytes, was: Bytes, now: Bytes)
    requires within + |patch| <= cs && start + within + |patch| <= |flat| && |was| == cs == |now|
    requires forall k :: 0 <= k < cs ==> was[k] == ByteAt(flat, start, k)
    requires forall k :: 0 <= k < cs ==> now[k] == ByteAt(Splice(flat, start + within, patch), start, k)
    ensures now == Splice(was, within, patch)
  {
    forall k | 0 <= k < cs ensures now[k] == Splice(was, within, patch)[k] {
      SpliceByte(was, within, patch, k);
      ByteAtSplice(flat, start, within, patch, k);
    }
  }

  /** A patch inside one chunk patches that padded chunk. */
  lemma PaddedSplice(flat: Bytes, cs: nat, idx: nat, within: nat, patch: Bytes)
    requires within + |patch| <= cs && idx * cs + within + |patch| <= |flat|
    ensures Padded(Splice(flat, idx * cs + within, patch), cs, idx) == Splice(Padded(flat, cs, idx), within, patch)
  {
    SplicedFrom(flat, cs, idx * cs, within, patch, Padded(flat, cs, idx),
                Padded(Splice(flat, idx * cs + within, patch), cs, idx));
  }

  /** A patch inside one chunk leaves the others. */
  lemma PaddedElsewhere(flat: Bytes, cs: nat, idx: nat, within: nat, patch: Bytes, other: nat)
    requires within + |patch| <= cs && idx * cs + within + |patch| <= |flat| && other != idx
    ensures Padded(Splice(flat, idx * cs + within, patch), cs, other) == Padded(flat, cs, other)
  {
    var at, start := idx * cs + within, other * cs;
    if other < idx {
      NextChunk(cs, other, idx);
    } else {
      NextChunk(cs, idx, other);
    }
    var a, b := Padded(Splice(flat, at, patch), cs, other), Padded(flat, cs, other);
    forall k | 0 <= k < cs ensures a[k] == b[k] {
      if start + k < |flat| {
        SpliceByte(flat, at, patch, start + k);
      }
    }
  }

  lemma PaddedGrow(flat: Bytes, n: nat, cs: nat, idx: nat)
    ensures Padded(flat + Zeros(n), cs, idx) == Padded(flat, cs, idx)
  {
  }

  /** The flat array with chunk `idx` wiped. */
  function Erased(flat: Bytes, cs: nat, idx: nat): (r: Bytes)
    requires cs > 0
    ensures |r| == |flat|
  {
    seq(|flat|, i requires 0 <= i < |flat| => if i / cs == idx then 0 else flat[i])
  }

  lemma PaddedErased(flat: Bytes, cs: nat, idx: nat, other: nat)
    requires cs > 0 && other != idx
    ensures Padded(Erased(flat, cs, idx), cs, other) == Padded(flat, cs, other)
  {
    var a, b := Padded(Erased(flat, cs, idx), cs, other), Padded(flat, cs, other);
    forall k | 0 <= k < cs ensures a[k] == b[k] {
      DivMod(cs, other, k);
    }
  }

  lemma ErasedFlat(img: Image, cs: nat, cap: nat, idx: nat)
    requires cs > 0 && Whole(img, cs)
    ensures Flat(img - {idx}, cs, cap) == Erased(Flat(img, cs, cap), cs, idx)
  {
  }

  /** Every entry is an old one with its data, or is at `key` with `data`. */
  ghost predicate Refreshed(was: Entries, now: Entries, key: Key, data: Bytes) {
    forall k :: k in now ==> if k == key then now[k].data == data else k in was && now[k].data == was[k].data
  }

  /** A chunk that was looked up is the pool's most recent, unless it is too large; a hit drops nothing. */
  ghost predicate CachedNow(was: Entries, now: Entries, key: Key, e: Entry, max: nat) {
    match e
    case Entry(data, _) =>
      && (key in was || |data| <= max ==> key in now && now[key] == e)
      && (key in was ==> now.Keys == was.Keys)
  }

  /** What a put leaves in the pool besides the new chunk was there before. */
  lemma PutRefreshes(was: Entries, kept: Entries, now: Entries, key: Key, data: Bytes, tick: nat, room: int)
    requires LongestRun(was - {key}, kept, room)
    requires now == kept[key := Entry(data, tick)] || now == map[]
    ensures Refreshed(was, now, key, data)
  {
  }

  /** A chunk refreshed with what the patched array holds there leaves the pool coherent with that array. */
  lemma PatchCoherent(was: Entries, now: Entries, volume: string, flat: Bytes, cs: nat, idx: nat, within: nat, patch: Bytes, data: Bytes)
    requires within + |patch| <= cs && idx * cs + within + |patch| <= |flat| && idx * cs < |flat|
    requires Coherent(was, volume, flat, cs) && Refreshed(was, now, Key(volume, idx), data)
    requires data == Splice(Padded(flat, cs, idx), within, patch) || Key(volume, idx) !in now
    ensures Coherent(now, volume, Splice(flat, idx * cs + within, patch), cs)
    ensures OthersKept(was, now, volume)
  {
    PaddedSplice(flat, cs, idx, within, patch);
    forall k | k in now && k.volume == volume
      ensures now[k].data == Padded(Splice(flat, idx * cs + within, patch), cs, k.idx)
    {
      if k.idx != idx {
        PaddedElsewhere(flat, cs, idx, within, patch, k.idx);
      }
    }
  }

  lemma OthersKeptMore(a: Entries, b: Entries, c: Entries, volume: string)
    requires OthersKept(a, b, volume) && OthersKept(b, c, volume)
    ensures OthersKept(a, c, volume)
  {
  }

  class CachedStore {
    const inner: Store
    const cache: Pool
    const volume: string
    var ioLocked: bool

    ghost predicate Valid()
      reads this, inner, cache
    {
      inner.Valid() && cache.Valid() && Coherent(cache.entries, volume, inner.Content(), inner.chunkSize)
    }

    constructor (inner: Store, cache: Pool, volume: string)
      requires inner.Valid() && cache.Valid()
      requires forall k :: k in cache.entries ==> k.volume != volume
      ensures Valid() && !ioLocked
      ensures this.inner == inner && this.cache == cache && this.volume == volume
    {
      this.inner, this.cache, this.volume, this.ioLocked := inner, cache, volume, false;
    }

    /** A whole chunk, from the pool or else from the store, which then caches it. */
    method LoadChunk(idx: nat) returns (r: Outcome<Bytes>)
      requires Valid()
      modifies cache`tick, cache`entries, cache`used
      ensures Valid() && OthersKept(old(cache.entries), cache.entries, volume)
      ensures r.Ok? <==> !ioLocked && idx * inner.chunkSize < inner.capacity
      ensures r.Ok? ==> r.value == Padded(inner.Content(), inner.chunkSize, idx)
      ensures r.Err? ==> r.error == if ioLocked then Other else OutOfRange(idx * inner.chunkSize, inner.chunkSize, inner.capacity)
      ensures r.Ok? ==>
                CachedNow(old(cache.entries), cache.entries, Key(volume, idx), Entry(r.value, cache.tick), cache.maxBytes)
      ensures r.Err? ==> cache.entries == old(cache.entries)
    {
      if ioLocked {
        return Err(Other);
      }
      var hit := cache.Get(volume, idx);
      if hit.Some? {
        return Ok(hit.value);
      }
      r := Fetch(idx);
      if r.Ok? {
        ghost var was := cache.entries;
        ghost var kept := cache.Put(volume, idx, r.value);
        PutRefreshes(was, kept, cache.entries, Key(volume, idx), r.value, cache.tick, cache.maxBytes - |r.value|);
      }
    }

    /** The chunk as the store has it, clamped to the capacity and padded with zeros. */
    method Fetch(idx: nat) returns (r: Outcome<Bytes>)
      requires inner.Valid()
      ensures r.Ok? <==> idx * inner.chunkSize < inner.capacity
      ensures r.Ok? ==> r.value == Padded(inner.Content(), inner.chunkSize, idx)
      ensures r.Err? ==> r.error == OutOfRange(idx * inner.chunkSize, inner.chunkSize, inner.capacity)
    {
      var cs := inner.chunkSize;
      var offset := idx * cs;
      var buf := new Byte[cs](_ => 0);
      if offset >= inner.capacity {
        return Err(OutOfRange(offset, cs, inner.capacity));
      }
      var valid := Min(inner.capacity - offset, cs);
      var read := inner.ReadAt(offset, buf, 0, valid);
      r := Ok(buf[..]);
    }

    /** Reads through the pool exactly what the store would read. */
    method ReadAt(offset: nat, buf: array<Byte>) returns (r: Outcome<()>)
      requires Valid()
      modifies buf, cache`tick, cache`entries, cache`used
      ensures Valid() && OthersKept(old(cache.entries), cache.entries, volume)
      ensures r == if ioLocked then Err(Other) else CheckRange(inner.capacity, offset, buf.Length)
      ensures buf[..] == if r.Ok? then inner.Content()[offset..offset + buf.Length] else old(buf[..])
    {
      if ioLocked {
        return Err(Other);
      }
      r := CheckRange(inner.capacity, offset, buf.Length);
      if r.Err? {
        return;
      }
      ghost var flat := inner.Content();
      var done := 0;
      while done < buf.Length
        invariant done <= buf.Length && Valid() && OthersKept(old(cache.entries), cache.entries, volume)
        invariant forall k :: 0 <= k < done ==> buf[k] == flat[offset + k]
      {
        var c := At(inner.chunkSize, offset, buf.Length, done);
        ghost var was := cache.entries;
        var chunk := LoadChunk(c.idx);
        OthersKeptMore(old(cache.entries), was, cache.entries, volume);
        forall k | done <= k < done + c.take {
          buf[k] := chunk.value[c.within + (k - done)];
        }
        done := done + c.take;
      }
    }

    /** Writes the store, then patches or drops each cached chunk on the way. */
    method WriteAt(offset: nat, data: Bytes) returns (r: Outcome<()>)
      requires Valid()
      modifies inner`chunks, cache`tick, cache`entries, cache`used
      ensures Valid() && OthersKept(old(cache.entries), cache.entries, volume)
      ensures r == if ioLocked then Err(Other) else CheckRange(inner.capacity, offset, |data|)
      ensures inner.Content() == if r.Ok? then Splice(old(inner.Content()), offset, data) else old(inner.Content())
    {
      if ioLocked {
        return Err(Other);
      }
      ghost var flat := inner.Content();
      r := inner.WriteAt(offset, data);
      if r.Err? {
        return;
      }
      UpdateRange(offset, data, flat);
    }

    /** Brings every cached chunk of the range from what `flat` holds to what the write left. */
    method UpdateRange(offset: nat, data: Bytes, ghost flat: Bytes)
      requires cache.Valid() && inner.chunkSize > 0 && offset + |data| <= |flat|
      requires Coherent(cache.entries, volume, flat, inner.chunkSize)
      modifies cache`tick, cache`entries, cache`used
      ensures cache.Valid() && OthersKept(old(cache.entries), cache.entries, volume)
      ensures Coherent(cache.entries, volume, Splice(flat, offset, data), inner.chunkSize)
    {
      var done: nat := 0;
      assert Splice(flat, offset, data[..0]) == flat;
      while done < |data|
        invariant done <= |data| && cache.Valid() && OthersKept(old(cache.entries), cache.entries, volume)
        invariant Coherent(cache.entries, volume, Splice(flat, offset, data[..done]), inner.chunkSize)
      {
        var c := At(inner.chunkSize, offset, |data|, done);
        ghost var was := cache.entries;
        UpdatePiece(c, offset, data, done, flat);
        OthersKeptMore(old(cache.entries), was, cache.entries, volume);
        done := done + c.take;
      }
      assert data[..done] == data;
    }

    method UpdatePiece(c: Cursor, ghost offset: nat, data: Bytes, done: nat, ghost flat: Bytes)
      requires cache.Valid() && offset + |data| <= |flat| && done <= |data| && c.within < inner.chunkSize
      requires Under(c, inner.chunkSize, offset + done, |data| - done)
      requires Coherent(cache.entries, volume, Splice(flat, offset, data[..done]), inner.chunkSize)
      modifies cache`tick, cache`entries, cache`used
      ensures cache.Valid() && OthersKept(old(cache.entries), cache.entries, volume)
      ensures cache.entries.Keys == old(cache.entries).Keys
      ensures Coherent(cache.entries, volume, Splice(flat, offset, data[..done + c.take]), inner.chunkSize)
    {
      SpliceMore(flat, offset, data, done, c.take);
      UpdateCached(c, data[done..done + c.take], Splice(flat, offset, data[..done]));
    }

    method UpdateCached(c: Cursor, patch: Bytes, ghost flat: Bytes)
      requires cache.Valid() && |patch| == c.take && c.within < inner.chunkSize
      requires c.within + c.take <= inner.chunkSize && c.idx * inner.chunkSize + c.within + c.take <= |flat| && 0 < c.take
      requires Coherent(cache.entries, volume, flat, inner.chunkSize)
      modifies cache`tick, cache`entries, cache`used
      ensures cache.Valid() && OthersKept(old(cache.entries), cache.entries, volume)
      ensures cache.entries.Keys == old(cache.entries).Keys
      ensures Coherent(cache.entries, volume, Splice(flat, c.idx * inner.chunkSize + c.within, patch), inner.chunkSize)
    {
      ghost var was := cache.entries;
      ghost var data := PatchCached(c.idx, c.within, patch);
      PatchCoherent(was, cache.entries, volume, flat, inner.chunkSize, c.idx, c.within, patch, data);
    }

    /** A chunk found in the pool is patched there; the pool holds the same chunks as before. */
    method PatchCached(idx: nat, within: nat, patch: Bytes) returns (ghost data: Bytes)
      requires cache.Valid()
      requires Key(volume, idx) in cache.entries ==> within + |patch| <= |cache.entries[Key(volume, idx)].data|
      modifies cache`tick, cache`entries, cache`used
      ensures cache.Valid() && cache.entries.Keys == old(cache.entries).Keys
      ensures Refreshed(old(cache.entries), cache.entries, Key(volume, idx), data)
      ensures Key(volume, idx) in old(cache.entries) ==> data == Splice(old(cache.entries)[Key(volume, idx)].data, within, patch)
    {
      var hit := cache.Get(volume, idx);
      data := if hit.Some? then Splice(hit.value, within, patch) else [];
      if hit.Some? {
        Refresh(idx, Splice(hit.value, within, patch));
      } else {
        cache.Invalidate(volume, idx);
      }
    }

    /** Puts a chunk back that was found in the pool. */
    method Refresh(idx: nat, data: Bytes)
      requires cache.Valid()
      modifies cache`tick, cache`entries, cache`used
      ensures cache.Valid() && Refreshed(old(cache.entries), cache.entries, Key(volume, idx), data)
      ensures Key(volume, idx) in old(cache.entries) && |data| == |old(cache.entries)[Key(volume, idx)].data| ==>
                cache.entries.Keys == old(cache.entries).Keys
    {
      ghost var was, tick := cache.entries, cache.tick;
      ghost var kept := cache.Put(volume, idx, data);
      if Key(volume, idx) in was && |data| == |was[Key(volume, idx)].data| {
        PutBack(was, kept, Key(volume, idx), data, cache.maxBytes, tick);
      }
      PutRefreshes(was, kept, cache.entries, Key(volume, idx), data, cache.tick, cache.maxBytes - |data|);
    }

    method SetCapacity(newCapacity: nat) returns (r: Outcome<()>)
      requires Valid() && newCapacity < U64
      modifies inner`capacity
      ensures Valid()
      ensures r == if ioLocked then Err(Other) else GrowCheck(inner.blockSize, old(inner.capacity), newCapacity)
      ensures inner.Content() == if r.Ok? then old(inner.Content()) + Zeros(newCapacity - old(inner.capacity)) else old(inner.Content())
    {
      if ioLocked {
        return Err(Other);
      }
      ghost var flat := inner.Content();
      r := inner.SetCapacity(newCapacity);
      if r.Ok? {
        forall k | k in cache.entries && k.volume == volume
          ensures Padded(inner.Content(), inner.chunkSize, k.idx) == Padded(flat, inner.chunkSize, k.idx)
        {
          PaddedGrow(flat, newCapacity - |flat|, inner.chunkSize, k.idx);
        }
      }
    }

    method DeleteChunk(idx: nat) returns (r: Outcome<()>)
      requires Valid()
      modifies inner`chunks, cache`entries, cache`used
      ensures Valid() && OthersKept(old(cache.entries), cache.entries, volume)
      ensures r == if ioLocked then Err(Other) else Ok(())
      ensures inner.Content() == if r.Ok? then Erased(old(inner.Content()), inner.chunkSize, idx) else old(inner.Content())
    {
      if ioLocked {
        return Err(Other);
      }
      ghost var flat := inner.Content();
      ErasedFlat(inner.chunks, inner.chunkSize, inner.capacity, idx);
      inner.DeleteChunk(idx);
      cache.Invalidate(volume, idx);
      forall k | k in cache.entries && k.volume == volume
        ensures Padded(inner.Content(), inner.chunkSize, k.idx) == Padded(flat, inner.chunkSize, k.idx)
      {
        PaddedErased(flat, inner.chunkSize, idx, k.idx);
      }
      r := Ok(());
    }

    /** Refuses I/O from here on and drops the volume's chunks. */
    method LockIo()
      requires Valid()
      modifies this`ioLocked, cache`entries, cache`used
      ensures Valid() && ioLocked && OthersKept(old(cache.entries), cache.entries, volume)
      ensures forall k :: k in cache.entries ==> k.volume != volume
    {
      ioLocked := true;
      cache.InvalidateVolume(volume);
    }

    method UnlockIo()
      requires Valid()
      modifies this`ioLocked
      ensures Valid() && !ioLocked
    {
      ioLocked := false;
    }
  }
}
