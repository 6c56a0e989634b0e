/** A copy-on-write volume as its daemon runs it, over a network that may fail any request. */
module CowStore {
  import opened Volume
  import opened SnapshotFormat
  import opened CowBucket
  import opened CowInvariant
  import MemoryStore

  /** What becomes of a request: done, lost, or done although an error is reported. */
  datatype Fate = Fine | Lost | Landed

  ghost predicate AllSafe(p: Params, seen: set<Bucket>) {
    forall t :: t in seen ==> Safe(p, t)
  }

  /** Reading one chunk: a missing pointer is zeros, a missing object is an error. */
  function ReadChunk(p: Params, b: Bucket, i: Index): Outcome<Bytes> {
    if i !in b.pointers then Ok(Zeros(p.cs)) else
    var h := p.fmt.target(b.pointers[i]);
    if h.Err? then Err(h.error)
    else if !Has(p, b, h.value) then Err(Other)
    else p.decode(b.objects[p.fmt.name(h.value)])
  }

  /**
   In any bucket: what is read under a pointer is the body stored under the name it gives,
   decoded. An unreadable pointer or a missing body is an error, never zeros.
   */
  lemma ReadsStored(p: Params, b: Bucket, i: Index, d: Bytes)
    ensures i in b.pointers ==>
              (ReadChunk(p, b, i) == Ok(d) <==>
               exists h :: p.fmt.target(b.pointers[i]) == Ok(h) && p.fmt.name(h) in b.objects
                           && p.decode(b.objects[p.fmt.name(h)]) == Ok(d))
    ensures i !in b.pointers ==> (ReadChunk(p, b, i) == Ok(d) <==> |d| == p.cs && forall k :: 0 <= k < p.cs ==> d[k] == 0)
  {
    if i in b.pointers && ReadChunk(p, b, i) == Ok(d) {
      var h := p.fmt.target(b.pointers[i]).value;
      assert p.fmt.target(b.pointers[i]) == Ok(h);
    } else if i !in b.pointers && |d| == p.cs && (forall k :: 0 <= k < p.cs ==> d[k] == 0) {
      assert d == Zeros(p.cs);
    }
  }

  /** In a safe bucket every chunk can be read, and reads as what is meant. */
  lemma ReadChunkOk(p: Params, b: Bucket, put: set<Bytes>, m: Meaning, i: Index)
    requires Usable(p) && Good(p, b, put, m)
    ensures ReadChunk(p, b, i).Ok? && |ReadChunk(p, b, i).value| == p.cs
    ensures NoCollision(p, put) ==> ReadChunk(p, b, i).value == Chunk(m.chunks, p.cs, i)
  {
    if i in b.pointers {
      assert PointerOk(p, b, i);
      var h := p.fmt.target(b.pointers[i]).value;
      assert Named(p, b, p.fmt.name(h));
      if NoCollision(p, put) {
        ShownData(p, b, Live(p, b), m.chunks, i);
      }
    } else if NoCollision(p, put) {
      assert i !in Live(p, b);
    }
  }

  ghost predicate Zeroed(img: Image, cs: nat, cap: nat) {
    cs > 0 && Whole(img, cs) && ZeroPast(img, cs, cap)
  }

  ghost predicate SnapZeroed(p: Params, b: Bucket, m: Meaning, id: string)
    requires id in m.snaps
  {
    id in b.manifests && Zeroed(m.snaps[id], p.cs, b.manifests[id].capacity)
  }

  ghost predicate SnapsZeroed(p: Params, b: Bucket, m: Meaning) {
    match m
    case Meaning(_, snaps) => forall id :: id in snaps ==> SnapZeroed(p, b, m, id)
  }

  /** What a restore starts from. */
  datatype Start = Start(b: Bucket, seen: set<Bucket>, put: set<Bytes>, snaps: map<string, Image>)

  class CowStore {
    const p: Params
    var b: Bucket
    var capacity: nat
    /** What the network has in store for the next requests; after these all goes well. */
    var fates: seq<Fate>
    /** The same for the next reads of a chunk: `false` is a read that fails. */
    var gets: seq<bool>
    /** Every object body this volume ever put. */
    ghost var put: set<Bytes>
    /** Every state the bucket has been in. */
    ghost var seen: set<Bucket>
    /** What the volume and its snapshots are meant to hold. */
    ghost var means: Meaning

    ghost predicate Valid()
      reads this
    {
      && Usable(p) && capacity < U64
      && Good(p, b, put, means) && b in seen && AllSafe(p, seen)
      && Zeroed(means.chunks, p.cs, capacity) && SnapsZeroed(p, b, means)
    }

    ghost function Content(): Bytes
      requires Valid()
      reads this
    {
      Flat(means.chunks, p.cs, capacity)
    }

    constructor (p: Params, capacity: nat)
      requires Usable(p) && capacity < U64
      ensures Valid() && this.p == p && this.capacity == capacity && Content() == Zeros(capacity)
      ensures b == Bucket(map[], map[], map[], map[], capacity)
    {
      this.p, this.capacity, this.fates, this.gets := p, capacity, [], [];
      this.b := Bucket(map[], map[], map[], map[], capacity);
      this.put := {};
      this.seen := {Bucket(map[], map[], map[], map[], capacity)};
      this.means := Meaning(map[], map[]);
    }

    /** What the network does with a request. */
    method Deliver(r: Request) returns (ok: bool, ghost landed: bool)
      modifies this`b, this`fates, this`seen
      ensures b == (if landed then Effect(p, old(b), r) else old(b)) && seen == old(seen) + (if landed then {b} else {})
      ensures ok ==> landed
      ensures old(fates) == [] ==> ok && fates == []
    {
      var fate := if fates == [] then Fine else fates[0];
      fates := if fates == [] then [] else fates[1..];
      ok, landed := fate == Fine, fate != Lost;
      if fate != Lost {
        b := Effect(p, b, r);
        seen := seen + {b};
      }
    }

    /** One request. It may be lost, and it may take effect and still be reported as failed. */
    method Send(r: Request, ghost next: Meaning) returns (ok: bool, ghost landed: bool)
      requires Valid() && MaySend(p, b, put, r, next)
      requires Zeroed(next.chunks, p.cs, capacity) && SnapsZeroed(p, Effect(p, b, r), next)
      modifies this`b, this`fates, this`put, this`seen, this`means
      ensures Valid() && old(seen) <= seen
      ensures b == (if landed then Effect(p, old(b), r) else old(b)) && put == Sent(old(put), r)
      ensures means == if landed then next else old(means)
      ensures ok ==> landed
      ensures old(fates) == [] ==> ok && fates == []
    {
      GoodMore(p, b, put, Sent(put, r), means);
      put := Sent(put, r);
      ok, landed := Deliver(r);
      if landed {
        means := next;
      }
    }

    /** Puts a payload under its hash: the meaning of every reference stays. */
    method PutPayload(body: Bytes) returns (ok: bool)
      requires Valid() && p.decode(body).Ok?
      modifies this`b, this`fates, this`put, this`seen, this`means
      ensures Valid() && old(seen) <= seen && put == old(put) + {body} && means == old(means)
      ensures b == old(b).(objects := b.objects)
      ensures ok ==> Has(p, b, p.hash(body)) && b.objects[p.fmt.name(p.hash(body))] == body
      ensures old(fates) == [] ==> ok && fates == []
    {
      GoodPutObject(p, b, put, means, body);
      ghost var landed;
      ok, landed := Send(PutObject(body), means);
    }

    /** Stores a chunk that is meant to hold `d`: first the object, then the pointer to it. */
    method StoreChunk(i: Index, chunk: Bytes, ghost d: Bytes) returns (ok: bool, ghost landed: bool)
      requires Valid() && Zeroed(means.chunks[i := d], p.cs, capacity)
      requires |chunk| == p.cs && (NoCollision(p, put) ==> chunk == d)
      modifies this`b, this`fates, this`put, this`seen, this`means
      ensures Valid() && old(seen) <= seen && old(put) <= put
      ensures b == old(b).(objects := b.objects, pointers := b.pointers)
      ensures ok ==> landed
      ensures old(fates) == [] ==> ok && fates == []
      ensures means == if landed then old(means).(chunks := old(means).chunks[i as nat := d]) else old(means)
    {
      landed := false;
      var body := p.encode(chunk);
      ghost var before := put;
      ok := PutPayload(body);
      if !ok {
        return;
      }
      if NoCollision(p, put) {
        FewerCollide(p, before, put);
      }
      GoodPutPointer(p, b, put, means, i, p.hash(body), d);
      ok, landed := Send(PutPointer(i, p.hash(body)), means.(chunks := means.chunks[i := d]));
    }

    /** Reads, patches and stores one chunk. */
    method WriteChunk(c: Cursor, patch: Bytes) returns (ok: bool, ghost landed: bool)
      requires Valid() && |patch| == c.take > 0 && c.within + c.take <= p.cs
      requires c.idx * p.cs + c.within + c.take <= capacity
      modifies this`b, this`gets, this`fates, this`put, this`seen, this`means
      ensures Valid() && old(seen) <= seen && old(put) <= put
      ensures b == old(b).(objects := b.objects, pointers := b.pointers)
      ensures ok ==> landed
      ensures old(fates) == [] && old(gets) == [] ==> ok && fates == [] && gets == []
      ensures means == if landed then old(means).(chunks := Patched(old(means).chunks, p.cs, c, patch)) else old(means)
    {
      BelowU64(p.cs, c, capacity);
      var found := ChunkToPatch(c);
      if found.Err? {
        return false, false;
      }
      ghost var d := Splice(Chunk(means.chunks, p.cs, c.idx), c.within, patch);
      ZeroPastSplice(means.chunks, p.cs, capacity, c.idx, c.within, patch);
      ok, landed := StoreChunk(c.idx, Splice(found.value, c.within, patch), d);
    }

    /** Reads a chunk, pointer then object; in a safe bucket only the network can make that fail. */
    method FetchChunk(i: Index) returns (r: Outcome<Bytes>)
      requires Valid()
      modifies this`gets
      ensures r.Err? ==> r.error == S3Error && old(gets) != []
      ensures r.Ok? ==> |r.value| == p.cs && (NoCollision(p, put) ==> r.value == Chunk(means.chunks, p.cs, i))
      ensures old(gets) == [] ==> gets == []
    {
      var fails := gets != [] && !gets[0];
      gets := if gets == [] then [] else gets[1..];
      if fails {
        return Err(S3Error);
      }
      ReadChunkOk(p, b, put, means, i);
      r := ReadChunk(p, b, i);
    }

    /** A chunk that is going to be overwritten whole is not read. */
    method ChunkToPatch(c: Cursor) returns (r: Outcome<Bytes>)
      requires Valid() && c.idx < U64
      modifies this`gets
      ensures r.Ok? ==> |r.value| == p.cs
      ensures r.Ok? ==> (NoCollision(p, put) ==> r.value == Chunk(means.chunks, p.cs, c.idx)) || (c.within == 0 && c.take == p.cs)
      ensures old(gets) == [] ==> r.Ok? && gets == []
    {
      if c.within == 0 && c.take == p.cs {
        r := Ok(Zeros(p.cs));
      } else {
        r := FetchChunk(c.idx);
      }
    }

    /** Copies one chunk's share of a read into the buffer. */
    method ReadPiece(offset: nat, buf: array<Byte>, n: nat) returns (ok: bool, c: Cursor)
      requires Valid() && n < buf.Length && offset + buf.Length <= capacity
      modifies buf, this`gets
      ensures c == At(p.cs, offset, buf.Length, n)
      ensures forall k :: 0 <= k < n ==> buf[k] == old(buf[k])
      ensures ok && NoCollision(p, put) ==> forall k :: n <= k < n + c.take ==> buf[k] == Content()[offset + k]
      ensures old(gets) == [] ==> ok && gets == []
    {
      c := At(p.cs, offset, buf.Length, n);
      BelowU64(p.cs, c, capacity);
      var chunk := FetchChunk(c.idx);
      ok := chunk.Ok?;
      if !ok {
        return;
      }
      forall k | n <= k < n + c.take {
        buf[k] := chunk.value[c.within + (k - n)];
      }
      forall k | n <= k < n + c.take ensures NoCollision(p, put) ==> buf[k] == Content()[offset + k] {
        ByteUnder(means.chunks, p.cs, capacity, c, offset, n, k);
      }
    }

    /** Reads, unless two bodies collide or a request fails, what was last written. */
    method ReadAt(offset: nat, buf: array<Byte>) returns (r: Outcome<()>)
      requires Valid()
      modifies buf, this`gets
      ensures CheckRange(capacity, offset, buf.Length).Err? ==> r == CheckRange(capacity, offset, buf.Length)
      ensures old(gets) == [] ==> r == CheckRange(capacity, offset, buf.Length)
      ensures r.Ok? ==> offset + buf.Length <= capacity
      ensures r.Ok? && NoCollision(p, put) ==> buf[..] == Content()[offset..offset + buf.Length]
    {
      r := CheckRange(capacity, offset, buf.Length);
      if r.Err? {
        return;
      }
      ghost var content := Content();
      var n: nat := 0;
      while n < buf.Length
        invariant n <= buf.Length && (old(gets) == [] ==> gets == [])
        invariant NoCollision(p, put) ==> forall k :: 0 <= k < n ==> buf[k] == content[offset + k]
      {
        var ok, c := ReadPiece(offset, buf, n);
        if !ok {
          return Err(S3Error);
        }
        n := n + c.take;
      }
    }

    /** The volume was `was`, and then the first `n` bytes of a write were done. */
    ghost predicate Written(was: Bytes, offset: nat, data: Bytes, n: nat)
      requires Valid()
      reads this
    {
      offset + |data| <= |was| == capacity && n <= |data| && Content() == Splice(was, offset, data[..n])
    }

    method WritePiece(c: Cursor, ghost offset: nat, data: Bytes, n: nat, ghost was: Bytes) returns (ok: bool, ghost done: nat)
      requires Valid() && Written(was, offset, data, n) && Under(c, p.cs, offset + n, |data| - n)
      modifies this`b, this`gets, this`fates, this`put, this`seen, this`means
      ensures Valid() && old(seen) <= seen && old(put) <= put
      ensures b == old(b).(objects := b.objects, pointers := b.pointers) && means.snaps == old(means).snaps
      ensures (ok ==> done == n + c.take) && Written(was, offset, data, done)
      ensures old(fates) == [] && old(gets) == [] ==> ok && fates == [] && gets == []
    {
      var patch := data[n..n + c.take];
      PieceWritten(means.chunks, p.cs, capacity, was, offset, data, n, c, patch);
      ghost var landed;
      ok, landed := WriteChunk(c, patch);
      done := if landed then n + c.take else n;
    }

    /**
     Writes chunk by chunk. A write that fails has written its first `done` bytes, whole
     chunk by whole chunk, and nothing else.
     */
    method WriteAt(offset: nat, data: Bytes) returns (r: Outcome<()>, ghost done: nat)
      requires Valid()
      modifies this`b, this`gets, this`fates, this`put, this`seen, this`means
      ensures Valid() && old(seen) <= seen && old(put) <= put
      ensures b == old(b).(objects := b.objects, pointers := b.pointers) && means.snaps == old(means).snaps
      ensures CheckRange(capacity, offset, |data|).Err? ==> r == CheckRange(capacity, offset, |data|) && b == old(b) && means == old(means)
      ensures done <= |data| && (r.Ok? ==> done == |data|)
      ensures old(fates) == [] && old(gets) == [] ==> r == CheckRange(capacity, offset, |data|) && fates == []
      ensures offset + |data| <= capacity ==> Written(old(Content()), offset, data, done)
    {
      r, done := CheckRange(capacity, offset, |data|), 0;
      if r.Err? {
        return;
      }
      ghost var was := Content();
      var n: nat := 0;
      assert Splice(was, offset, data[..0]) == was;
      while n < |data|
        invariant n == done && Valid() && old(seen) <= seen && old(put) <= put
        invariant b == old(b).(objects := b.objects, pointers := b.pointers) && means.snaps == old(means).snaps
        invariant old(fates) == [] && old(gets) == [] ==> fates == [] && gets == []
        invariant Written(was, offset, data, n)
      {
        var c := At(p.cs, offset, |data|, n);
        var ok;
        ok, done := WritePiece(c, offset, data, n, was);
        if !ok {
          r := Err(S3Error);
          return;
        }
        n := n + c.take;
      }
    }

    /** Deleting a chunk wipes it. */
    method DeleteChunk(idx: Index) returns (r: Outcome<()>, ghost landed: bool)
      requires Valid()
      modifies this`b, this`fates, this`put, this`seen, this`means
      ensures Valid() && old(seen) <= seen && put == old(put)
      ensures b == if landed then DropPointer(old(b), idx) else old(b)
      ensures means == if landed then old(means).(chunks := old(means).chunks - {idx as nat}) else old(means)
      ensures r.Ok? ==> landed
      ensures old(fates) == [] ==> r.Ok? && fates == []
    {
      GoodDeletePointer(p, b, put, means, idx);
      var ok;
      ok, landed := Send(DeletePointer(idx), means.(chunks := means.chunks - {idx as nat}));
      r := if ok then Ok(()) else Err(S3Error);
    }

    /** Capacity grows by whole blocks; the new bytes are zero. */
    method SetCapacity(newCapacity: nat) returns (r: Outcome<()>)
      requires Valid() && newCapacity < U64
      modifies this`b, this`fates, this`put, this`seen, this`means, this`capacity
      ensures Valid() && old(seen) <= seen && put == old(put) && b == old(b).(meta := b.meta) && means == old(means)
      ensures capacity == if r.Ok? then newCapacity else old(capacity)
      ensures r.Ok? ==> MemoryStore.GrowCheck(p.bs, old(capacity), newCapacity).Ok?
      ensures MemoryStore.GrowCheck(p.bs, old(capacity), newCapacity).Err? ==>
                r == MemoryStore.GrowCheck(p.bs, old(capacity), newCapacity) && b == old(b)
      ensures old(fates) == [] ==> r == MemoryStore.GrowCheck(p.bs, old(capacity), newCapacity) && fates == []
      ensures r.Ok? ==> Content() == old(Content()) + Zeros(newCapacity - old(capacity))
      ensures r.Ok? && newCapacity != old(capacity) ==> b.meta == newCapacity
      ensures r.Err? || newCapacity == old(capacity) ==> b.meta == old(b).meta || b.meta == newCapacity
    {
      r := MemoryStore.GrowCheck(p.bs, capacity, newCapacity);
      if r.Err? || newCapacity == capacity {
        assert r.Ok? ==> Content() + Zeros(0) == Content();
        return;
      }
      GoodPutMeta(p, b, put, means, newCapacity);
      var ok; ghost var landed;
      ok, landed := Send(PutMeta(newCapacity), means);
      if !ok {
        r := Err(S3Error);
        return;
      }
      FlatGrow(means.chunks, p.cs, capacity, newCapacity);
      capacity := newCapacity;
    }

    // ---------------------------------------------------------- snapshots

    /**
     A manifest that says `Creating`, the list, then the same manifest saying `Ready`; a
     snapshot that is there already is not touched.
     */
    method SnapshotCreate(id: string) returns (r: Outcome<Manifest>)
      requires Valid() && |b.pointers| < U64
      modifies this`b, this`fates, this`put, this`seen, this`means
      ensures Valid() && old(seen) <= seen && put == old(put)
      ensures b == old(b).(manifests := b.manifests, bins := b.bins) && means.chunks == old(means).chunks
      ensures OthersKept(old(b), old(means), b, means, id)
      ensures !ValidId(id) || id in old(b).manifests ==> r == Err(Other) && b == old(b) && means == old(means)
      ensures ValidId(id) && id !in old(b).manifests ==> CreateStage(p, b, id, Manifest(id, capacity, p.cs, p.bs, p.algorithm, 0, Creating))
      ensures r.Ok? ==>
                && id in b.bins && SnapRefs(p, b, id) == Live(p, b) && id in means.snaps && means.snaps[id] == means.chunks
                && id in b.manifests && b.manifests[id] == r.value
                && r.value == Manifest(id, capacity, p.cs, p.bs, p.algorithm, |b.pointers|, Ready)
      ensures old(fates) == [] && ValidId(id) && id !in old(b).manifests ==> r.Ok?
    {
      if !ValidId(id) || id in b.manifests {
        return Err(Other);
      }
      UnlistedHasNoBin(p, b, id);
      var m := Manifest(id, capacity, p.cs, p.bs, p.algorithm, 0, Creating);
      var ok := SendManifest(m);
      if !ok {
        return Err(S3Error);
      }
      ghost var b1, m1 := b, means;
      r := FinishCreate(id, m);
      KeptMore(old(b), old(means), b1, m1, b, means, id);
    }

    /** The list, then the manifest that says it is complete. */
    method FinishCreate(id: string, m: Manifest) returns (r: Outcome<Manifest>)
      requires Valid() && |b.pointers| < U64 && id in b.manifests && b.manifests[id] == m && id !in b.bins
      requires m.id == id && m.capacity == capacity
      modifies this`b, this`fates, this`put, this`seen, this`means
      ensures Valid() && old(seen) <= seen && put == old(put)
      ensures b == old(b).(manifests := b.manifests, bins := b.bins) && means.chunks == old(means).chunks
      ensures OthersKept(old(b), old(means), b, means, id) && CreateStage(p, b, id, m)
      ensures r.Ok? ==>
                && id in b.bins && SnapRefs(p, b, id) == Live(p, b) && id in means.snaps && means.snaps[id] == means.chunks
                && id in b.manifests && b.manifests[id] == r.value == m.(chunkCount := |b.pointers|, state := Ready)
      ensures old(fates) == [] ==> r.Ok? && fates == []
    {
      var ok := PutList(id);
      if !ok {
        return Err(S3Error);
      }
      ghost var b1, m1 := b, means;
      var ready := m.(chunkCount := |b.pointers|, state := Ready);
      CreateReady(p, b, id, m, ready);
      ok := SendManifest(ready);
      KeptMore(old(b), old(means), b1, m1, b, means, id);
      r := if ok then Ok(ready) else Err(S3Error);
    }

    /** Puts a manifest; one that has its list already keeps its capacity. */
    method SendManifest(m: Manifest) returns (ok: bool)
      requires Valid() && (m.id in b.bins ==> m.id in b.manifests && b.manifests[m.id].capacity == m.capacity)
      modifies this`b, this`fates, this`put, this`seen, this`means
      ensures Valid() && old(seen) <= seen && put == old(put) && means == old(means)
      ensures b == old(b) || b == SetManifest(old(b), m)
      ensures ok ==> b == SetManifest(old(b), m)
      ensures OthersKept(old(b), old(means), b, means, m.id)
      ensures old(fates) == [] ==> ok && fates == []
    {
      GoodPutManifest(p, b, put, means, m);
      ManifestZeroed(p, b, means, m);
      KeptSame(b, means, m.id);
      ghost var landed;
      ok, landed := Send(PutManifest(m), means);
    }

    /** Stores the list of the live pointers as a snapshot's `chunks.bin`. */
    method PutList(id: string) returns (ok: bool)
      requires Valid() && |b.pointers| < U64
      requires id in b.manifests && id !in b.bins && b.manifests[id].capacity == capacity
      modifies this`b, this`fates, this`put, this`seen, this`means
      ensures Valid() && old(seen) <= seen && put == old(put)
      ensures b == old(b).(bins := b.bins) && means.chunks == old(means).chunks
      ensures OthersKept(old(b), old(means), b, means, id)
      ensures ok ==> id in b.bins && SnapRefs(p, b, id) == Live(p, b) && id in means.snaps && means.snaps[id] == means.chunks
      ensures old(fates) == [] ==> ok && fates == []
    {
      var bin := LiveBin(p, b, put, means, id);
      ListZeroed(p, b, means, id, bin);
      KeptSame(b, means, id);
      ghost var landed;
      ok, landed := Send(PutBin(id, bin), means.(snaps := means.snaps[id := means.chunks]));
    }

    // ----------------------------------------------------------- restoring

    /**
     Points the volume at the snapshot's chunks, then drops the pointers the snapshot has
     not. A restore that ends leaves exactly the snapshot's pointers, wherever an earlier
     one had stopped.
     */
    method SnapshotRestore(id: string) returns (r: Outcome<RestoreStats>)
      requires Valid()
      modifies this`b, this`fates, this`put, this`seen, this`means, this`capacity
      ensures Valid() && old(seen) <= seen && put == old(put)
      ensures b == old(b).(pointers := b.pointers, meta := b.meta) && means.snaps == old(means).snaps
      ensures old(capacity) <= capacity
      ensures id !in old(b).manifests || old(b).manifests[id].state != Ready ==>
                r == Err(Other) && b == old(b) && means == old(means) && capacity == old(capacity)
      ensures id in old(b).manifests && old(b).manifests[id].state == Ready && !SameShape(p, old(b).manifests[id]) ==>
                r == Err(GeometryMismatch) && b == old(b) && means == old(means) && capacity == old(capacity)
      ensures id !in old(b).bins ==> r.Err? && b.pointers == old(b).pointers && means == old(means)
      ensures r.Ok? ==>
                && id in b.bins && id in b.manifests && id in means.snaps
                && b.manifests[id].state == Ready && b.manifests[id].chunkSize == p.cs
                && b.manifests[id].blockSize == p.bs && b.manifests[id].algorithm == p.algorithm
                && Live(p, b) == SnapRefs(p, b, id) && means.chunks == means.snaps[id]
                && capacity == Max(old(capacity), b.manifests[id].capacity)
                && r.value == RestoreStats(|Records(p, b.bins[id])|, |old(b).pointers.Keys - b.pointers.Keys|, capacity)
      ensures Restorable(p, old(b), id) && old(fates) == [] && b.manifests[id].capacity % p.bs == 0 ==> r.Ok?
    {
      var check := RestoreCheck(p, b, id);
      if check.Err? {
        return Err(check.error);
      }
      if capacity < check.value.capacity {
        var grown := SetCapacity(check.value.capacity);
        if grown.Err? {
          return Err(grown.error);
        }
      }
      if id !in b.bins {
        return Err(Other);
      }
      var ok, written, deleted := RestorePointers(id);
      if !ok {
        return Err(S3Error);
      }
      Restored(p, b, put, means, id, capacity);
      means := means.(chunks := means.snaps[id]);
      r := Ok(RestoreStats(written, deleted, capacity));
    }

    /** Puts the snapshot's pointers, then drops the ones listed before that it has not. */
    method RestorePointers(id: string) returns (ok: bool, written: nat, deleted: nat)
      requires Valid() && id in b.bins && id in b.manifests && b.manifests[id].capacity <= capacity
      modifies this`b, this`fates, this`put, this`seen, this`means
      ensures Valid() && old(seen) <= seen && put == old(put)
      ensures b == old(b).(pointers := b.pointers) && means.snaps == old(means).snaps
      ensures ok ==> Live(p, b) == SnapRefs(p, b, id)
      ensures ok ==> written == |Records(p, b.bins[id])| && deleted == |old(b).pointers.Keys - b.pointers.Keys|
      ensures old(fates) == [] ==> ok && fates == []
    {
      var refs := Records(p, b.bins[id]);
      var listing := b.pointers.Keys;
      ghost var was := Live(p, b);
      written, deleted := |refs|, 0;
      ok := PutPointers(id, refs);
      if !ok {
        return;
      }
      OverlayListed(p, old(b), refs, listing);
      ok, deleted := DropExtra(listing, refs);
      LiveResolves(p, b);
    }

    /** Puts the pointer of one record of a snapshot. */
    method PutOne(id: string, r: ChunkRef) returns (ok: bool)
      requires Valid() && HasRecord(p, b, id, r) && id in b.manifests && b.manifests[id].capacity <= capacity
      modifies this`b, this`fates, this`put, this`seen, this`means
      ensures Valid() && old(seen) <= seen && put == old(put)
      ensures b == old(b).(pointers := b.pointers) && means.snaps == old(means).snaps
      ensures ok ==> Live(p, b) == Live(p, old(b))[r.index := r.hash]
      ensures old(fates) == [] ==> ok && fates == []
    {
      RecordData(p, b, put, means, id, r);
      ghost var d := Chunk(means.snaps[id], p.cs, r.index);
      GoodPutPointer(p, b, put, means, r.index, r.hash, d);
      ZeroedPut(p, b, means, id, r.index, capacity);
      SetPointerLive(p, b, r.index, r.hash);
      ghost var landed;
      ok, landed := Send(PutPointer(r.index, r.hash), means.(chunks := means.chunks[r.index := d]));
    }

    method PutPointers(id: string, refs: seq<ChunkRef>) returns (ok: bool)
      requires Valid() && id in b.bins && refs == Records(p, b.bins[id])
      requires id in b.manifests && b.manifests[id].capacity <= capacity
      modifies this`b, this`fates, this`put, this`seen, this`means
      ensures PutUpto(Start(old(b), old(seen), old(put), old(means).snaps), refs, |refs|, ok)
      ensures old(fates) == [] ==> ok && fates == []
    {
      ok := PutAll(id, refs, Start(b, seen, put, means.snaps));
    }

    /** The loop over the records of a snapshot. */
    method PutAll(id: string, refs: seq<ChunkRef>, ghost t: Start) returns (ok: bool)
      requires PutUpto(t, refs, 0, true) && id in t.b.bins && refs == Records(p, t.b.bins[id])
      requires id in t.b.manifests && t.b.manifests[id].capacity <= capacity
      modifies this`b, this`fates, this`put, this`seen, this`means
      ensures PutUpto(t, refs, |refs|, ok)
      ensures old(fates) == [] ==> ok && fates == []
    {
      ok := true;
      var n: nat := 0;
      while n < |refs| && ok
        invariant PutUpto(t, refs, n, ok)
        invariant old(fates) == [] ==> ok && fates == []
      {
        ok := PutNth(id, refs, n, t);
        n := n + 1;
      }
    }

    /** Since `t` only pointers of the bucket have changed, and only the meaning of the volume. */
    ghost predicate PointersOnly(t: Start)
      reads this
    {
      match t
      case Start(b0, seen0, put0, snaps0) =>
        && Valid() && seen0 <= seen && put == put0 && means.snaps == snaps0 && b == b0.(pointers := b.pointers)
    }

    /** All of the first `n` records are in place, or some. */
    ghost predicate PutUpto(t: Start, refs: seq<ChunkRef>, n: nat, ok: bool)
      reads this
    {
      match t
      case Start(b0, _, _, _) => n <= |refs| && PointersOnly(t) && (ok ==> Live(p, b) == Overlay(Live(p, b0), refs, n))
    }

    /** The `n`th record of a snapshot. */
    method PutNth(id: string, refs: seq<ChunkRef>, n: nat, ghost t: Start) returns (ok: bool)
      requires n < |refs| && PutUpto(t, refs, n, true)
      requires id in t.b.bins && refs == Records(p, t.b.bins[id])
      requires id in t.b.manifests && t.b.manifests[id].capacity <= capacity
      modifies this`b, this`fates, this`put, this`seen, this`means
      ensures PutUpto(t, refs, n + 1, ok)
      ensures old(fates) == [] ==> ok && fates == []
    {
      assert HasRecord(p, b, id, refs[n]);
      ok := PutOne(id, refs[n]);
    }

    /** Deletes the listed pointers that the snapshot has no record for. */
    method DropExtra(listing: set<Index>, refs: seq<ChunkRef>) returns (ok: bool, deleted: nat)
      requires Valid() && Overlaid(Live(p, b), Table(refs), listing)
      modifies this`b, this`fates, this`put, this`seen, this`means
      ensures Valid() && old(seen) <= seen && put == old(put)
      ensures b == old(b).(pointers := b.pointers) && means.snaps == old(means).snaps
      ensures ok ==> Live(p, b) == Table(refs) && deleted == |listing - Table(refs).Keys|
      ensures old(fates) == [] ==> ok && fates == []
    {
      var keep := set k | 0 <= k < |refs| :: refs[k].index;
      TableKeys(refs);
      var rest := listing;
      deleted := 0;
      DropEnds(listing, keep);
      while rest != {}
        invariant Valid() && old(seen) <= seen && put == old(put)
        invariant b == old(b).(pointers := b.pointers) && means.snaps == old(means).snaps
        invariant Overlaid(Live(p, b), Table(refs), rest) && rest <= listing && deleted == Dropped(listing, rest, keep)
        invariant old(fates) == [] ==> fates == []
        decreases rest
      {
        var i :| i in rest;
        OverlaidLess(Live(p, b), Table(refs), rest, i);
        DropCount(listing, rest, keep, i);
        if i !in keep {
          DropPointerLive(p, b, i);
          var r; ghost var landed;
          r, landed := DeleteChunk(i);
          if r.Err? {
            ok := false;
            return;
          }
          deleted := deleted + 1;
        }
        rest := rest - {i};
      }
      OverlaidDone(Live(p, b), Table(refs));
      DropEnds(listing, keep);
      ok := true;
    }

    /** However a first restore ends, a second one that ends leaves the snapshot's pointers. */
    method RestoreAgain(id: string, first: seq<Fate>) returns (r: Outcome<RestoreStats>)
      requires Valid() && Restorable(p, b, id) && b.manifests[id].capacity % p.bs == 0
      modifies this
      ensures Valid() && r.Ok? && b.bins == old(b).bins
      ensures id in b.bins && Live(p, b) == SnapRefs(p, b, id) && id in means.snaps && means.chunks == old(means).snaps[id]
    {
      fates := first;
      r := SnapshotRestore(id);
      fates := [];
      r := SnapshotRestore(id);
    }

    // --------------------------------------------------- garbage collection

    /** Deletes the listed objects whose hash is not marked. */
    method Sweep(marked: set<Hash>, ghost unread: set<string>) returns (ok: bool, deleted: nat)
      requires Valid() && Marks(p, b, unread, marked)
      modifies this`b, this`fates, this`seen
      ensures old(seen) <= seen && b == old(b).(objects := b.objects)
      ensures NamedElsewhere(p, old(b), unread) ==> Valid()
      ensures KeepsMarked(p, old(b), unread, b)
      ensures ok ==> Swept(p, old(b), unread, b, {}) && deleted + |b.objects| == |old(b).objects|
      ensures old(fates) == [] ==> ok && fates == []
    {
      ghost var was := b;
      var rest := b.objects.Keys;
      deleted := 0;
      SweptStart(p, b, unread);
      while rest != {}
        invariant old(seen) <= seen && (NamedElsewhere(p, was, unread) ==> Valid())
        invariant b == was.(objects := b.objects) && rest <= was.objects.Keys
        invariant Swept(p, was, unread, b, rest) && deleted + |b.objects| == |was.objects|
        invariant old(fates) == [] ==> fates == []
        decreases rest
      {
        var n :| n in rest;
        var one;
        ok, one := SweepOne(n, marked, was, unread, rest);
        if !ok {
          return;
        }
        deleted := deleted + if one then 1 else 0;
        rest := rest - {n};
      }
      SweptKeeps(p, was, unread, b, {});
      ok := true;
    }

    /** Deletes an object; an intact volume stays so if nothing refers to it. */
    method DeletePayload(n: string, ghost intact: bool) returns (ok: bool, ghost landed: bool)
      requires intact ==> Valid() && p.fmt.parse(n).Some? && !Referenced(p, b, p.fmt.parse(n).value)
      modifies this`b, this`fates, this`seen
      ensures intact ==> Valid()
      ensures old(seen) <= seen && b == if landed then DropObject(old(b), n) else old(b)
      ensures ok ==> landed
      ensures old(fates) == [] ==> ok && fates == []
    {
      if intact {
        GoodDeleteObject(p, b, put, means, n);
      }
      ok, landed := Deliver(DeleteObject(n));
    }

    /** One listed object: kept if its name does not parse or its hash is marked, else deleted. */
    method SweepOne(n: string, marked: set<Hash>, ghost was: Bucket, ghost unread: set<string>, ghost rest: set<string>)
      returns (ok: bool, one: bool)
      requires NamedElsewhere(p, was, unread) ==> Valid()
      requires b == was.(objects := b.objects) && Swept(p, was, unread, b, rest) && n in rest && n in was.objects
      requires Marks(p, was, unread, marked)
      modifies this`b, this`fates, this`seen
      ensures NamedElsewhere(p, was, unread) ==> Valid()
      ensures old(seen) <= seen && b == was.(objects := b.objects)
      ensures ok ==> Swept(p, was, unread, b, rest - {n}) && |b.objects| + (if one then 1 else 0) == |old(b).objects|
      ensures !ok ==> KeepsMarked(p, was, unread, b)
      ensures old(fates) == [] ==> ok && fates == []
    {
      var h := p.fmt.parse(n);
      SweptLess(p, was, unread, b, rest, n);
      SweptKeeps(p, was, unread, b, rest);
      one := false;
      if h.None? || h.value in marked {
        return true, false;
      }
      OneFewer(b, n);
      if NamedElsewhere(p, was, unread) {
        Unreferenced(p, was, unread, h.value);
        SameReferenced(p, was, b, h.value);
      }
      ghost var landed;
      ok, landed := DeletePayload(n, NamedElsewhere(p, was, unread));
      if landed {
        SweptKeeps(p, was, unread, b, rest - {n});
      }
      one := true;
    }

    /**
     Marks what live pointers and listed snapshots name, then sweeps the pool. The lists of
     `unread` cannot be read and are skipped. A run that ends leaves exactly the marked
     objects; one that fails, at least those. The volume stays intact if all that the
     skipped lists name is named elsewhere too.
     */
    method CollectGarbage(unread: set<string>) returns (r: Outcome<GcStats>)
      requires Valid()
      modifies this`b, this`fates, this`seen
      ensures old(seen) <= seen && b == old(b).(objects := b.objects) && KeepsMarked(p, old(b), unread, b)
      ensures r.Ok? ==> b == SweptBut(p, old(b), unread)
      ensures r.Ok? ==> r.value.deleted == |old(b).objects| - |b.objects|
      ensures r.Ok? ==> forall marked :: Marks(p, old(b), unread, marked) ==> r.value.referenced == |marked|
      ensures NamedElsewhere(p, old(b), unread) ==> Valid()
      ensures old(fates) == [] ==> r.Ok?
    {
      ghost var was := b;
      var marked := MarkAll(p, b, unread);
      var ok, deleted := Sweep(marked, unread);
      if !ok {
        return Err(S3Error);
      }
      SweptIs(p, was, unread, b);
      forall other | Marks(p, was, unread, other) ensures other == marked {
        OneMarking(p, was, unread, marked, other);
      }
      r := Ok(GcStats(deleted, |marked|));
    }

    /** A collection that can read every list leaves exactly the objects that are named. */
    method CollectAll() returns (r: Outcome<GcStats>)
      requires Valid()
      modifies this`b, this`fates, this`seen
      ensures Valid() && old(seen) <= seen && b == old(b).(objects := b.objects)
      ensures r.Ok? ==> forall n :: n in b.objects <==> n in old(b).objects && NamesReferenced(p, old(b), n)
      ensures r.Ok? ==> r.value.deleted == |old(b).objects| - |b.objects|
      ensures old(fates) == [] ==> r.Ok?
    {
      SweptExact(p, b);
      r := CollectGarbage({});
    }

    /** The list goes first, then the manifest, then what nothing else names. */
    method SnapshotDelete(id: string) returns (r: Outcome<GcStats>)
      requires Valid()
      modifies this`b, this`fates, this`put, this`seen, this`means
      ensures Valid() && old(seen) <= seen && put == old(put)
      ensures b.pointers == old(b).pointers && b.meta == old(b).meta && means.chunks == old(means).chunks
      ensures OthersKept(old(b), old(means), b, means, id)
      ensures id !in old(b).manifests ==> r.Err? && b == old(b) && means == old(means)
      ensures r.Ok? ==> id !in b.bins && id !in b.manifests && forall n :: n in b.objects ==> NamesReferenced(p, b, n)
      ensures old(fates) == [] && id in old(b).manifests ==> r.Ok?
    {
      if id !in b.manifests {
        return Err(Other);
      }
      var ok := DropSnapshot(id);
      if !ok {
        return Err(S3Error);
      }
      ghost var was := b;
      r := CollectAll();
      if r.Ok? {
        SameNames(p, was, b);
      }
      KeptByGc(old(b), old(means), was, b, means, id);
    }

    method DropSnapshot(id: string) returns (ok: bool)
      requires Valid()
      modifies this`b, this`fates, this`put, this`seen, this`means
      ensures Valid() && old(seen) <= seen && put == old(put)
      ensures b == old(b).(manifests := b.manifests, bins := b.bins) && means.chunks == old(means).chunks
      ensures OthersKept(old(b), old(means), b, means, id)
      ensures ok ==> id !in b.bins && id !in b.manifests
      ensures old(fates) == [] ==> ok && fates == []
    {
      GoodDeleteBin(p, b, put, means, id);
      BinGone(p, b, means, id);
      KeptSame(b, means, id);
      ghost var landed;
      ok, landed := Send(DeleteBin(id), means.(snaps := means.snaps - {id}));
      if !ok {
        return;
      }
      GoodDeleteManifest(p, b, put, means, id);
      ManifestGone(p, b, means, id);
      KeptSame(b, means, id);
      ghost var b1, m1 := b, means;
      ok, landed := Send(DeleteManifest(id), means);
      KeptMore(old(b), old(means), b1, m1, b, means, id);
    }

    // ------------------------------------------------------------ whole runs

    method Perform(op: Op)
      requires Valid()
      modifies this
      ensures Valid() && old(seen) <= seen && old(put) <= put
      ensures AllKept(old(b), old(means), b, means, DeletedBy(op))
    {
      match op {
        case Write(offset, data) =>
          var r; ghost var done;
          r, done := WriteAt(offset, data);
          SameSnaps(p, old(b), old(put), old(means), b, means);
        case Erase(i) =>
          var r; ghost var landed;
          r, landed := DeleteChunk(i);
          SameSnaps(p, old(b), old(put), old(means), b, means);
        case Grow(capacity) =>
          var r := SetCapacity(capacity);
          SameSnaps(p, old(b), old(put), old(means), b, means);
        case Create(id) =>
          if |b.pointers| < U64 {
            var r := SnapshotCreate(id);
            CreateKeeps(p, old(b), old(put), old(means), b, means, id);
          } else {
            SameSnaps(p, old(b), old(put), old(means), b, means);
          }
        case Delete(id) =>
          var r := SnapshotDelete(id);
          DeleteKeeps(p, old(b), old(put), old(means), b, means, id);
        case Restore(id) =>
          var r := SnapshotRestore(id);
          SameSnaps(p, old(b), old(put), old(means), b, means);
        case Gc =>
          var r := CollectAll();
          SameSnaps(p, old(b), old(put), old(means), b, means);
      }
    }

    method PerformAll(ops: seq<Op>, weather: seq<seq<Fate>>)
      requires Valid() && |weather| == |ops|
      modifies this
      ensures Valid() && old(seen) <= seen && old(put) <= put
      ensures AllKept(old(b), old(means), b, means, Deleted(ops))
    {
      ghost var b0, m0 := b, means;
      SameSnaps(p, b, put, means, b, means);
      var n: nat := 0;
      while n < |ops|
        invariant n <= |ops| && Valid() && old(seen) <= seen && old(put) <= put
        invariant AllKept(b0, m0, b, means, Deleted(ops[..n]))
      {
        ghost var b1, m1 := b, means;
        fates := weather[n];
        Perform(ops[n]);
        AllKeptMore(b0, m0, b1, m1, b, means, ops, n);
        n := n + 1;
      }
      assert ops[..n] == ops;
    }

    /**
     Over any run, whatever the network does to any request: every state the bucket passes
     through is safe, and a snapshot the run does not delete keeps its list, its manifest
     and, unless two bodies collide, its content.
     */
    method Run(ops: seq<Op>, weather: seq<seq<Fate>>)
      requires Valid() && |weather| == |ops|
      modifies this
      ensures Valid() && old(seen) <= seen && old(put) <= put && b in seen && AllSafe(p, seen)
      ensures AllKept(old(b), old(means), b, means, Deleted(ops))
      ensures AllConstant(p, old(b), b, put, Deleted(ops))
    {
      ghost var b0, put0, m0 := b, put, means;
      PerformAll(ops, weather);
      KeptAllConstant(p, b0, put0, m0, b, put, means, Deleted(ops));
    }
  }

  /** A snapshot taken and any run that does not delete it leave it to be restored. */
  method SnapshotThenRun(s: CowStore, id: string, ops: seq<Op>, weather: seq<seq<Fate>>)
    requires s.Valid() && s.fates == [] && |s.b.pointers| < U64
    requires ValidId(id) && id !in s.b.manifests && id !in Deleted(ops) && |weather| == |ops|
    modifies s
    ensures s.Valid() && Restorable(s.p, s.b, id) && s.b.manifests[id].capacity == old(s.capacity)
    ensures id in s.means.snaps && s.means.snaps[id] == old(s.means).chunks
  {
    var created := s.SnapshotCreate(id);
    ghost var b1, m1 := s.b, s.means;
    s.Run(ops, weather);
    assert Kept(b1, m1, s.b, s.means, id);
    assert SnapshotOk(s.p, s.b, id);
  }

  /**
   A snapshot taken, any run that does not delete it, and a restore: the volume is again the
   volume of the snapshot, with zeros where it has grown since.
   */
  method SnapshotThenRestore(s: CowStore, id: string, ops: seq<Op>, weather: seq<seq<Fate>>)
    requires s.Valid() && s.fates == [] && |s.b.pointers| < U64 && s.capacity % s.p.bs == 0
    requires ValidId(id) && id !in s.b.manifests && id !in Deleted(ops) && |weather| == |ops|
    modifies s
    ensures s.Valid() && s.capacity >= old(s.capacity)
    ensures s.Content() == old(s.Content()) + Zeros(s.capacity - old(s.capacity))
  {
    ghost var cap, chunks := s.capacity, s.means.chunks;
    SnapshotThenRun(s, id, ops, weather);
    RestoreCapacity(s, id, cap, chunks);
  }

  /**
   A creation that stopped before its last manifest, and any run that does not delete what it
   left: no restore accepts it.
   */
  method UnfinishedNotRestored(s: CowStore, id: string, ops: seq<Op>, weather: seq<seq<Fate>>) returns (r: Outcome<RestoreStats>)
    requires s.Valid() && id in s.b.manifests && s.b.manifests[id].state == Creating
    requires id !in Deleted(ops) && |weather| == |ops|
    modifies s
    ensures s.Valid() && r == Err(Other)
    ensures id in s.b.manifests && s.b.manifests[id] == old(s.b).manifests[id]
  {
    ghost var b0 := s.b;
    s.Run(ops, weather);
    assert ManifestKept(b0, s.b, id);
    r := s.SnapshotRestore(id);
  }

  /** A restore without failures, of a snapshot of `chunks` at capacity `cap`. */
  method RestoreCapacity(s: CowStore, id: string, ghost cap: nat, ghost chunks: Image)
    requires s.Valid() && Restorable(s.p, s.b, id) && s.b.manifests[id].capacity == cap && cap % s.p.bs == 0
    requires id in s.means.snaps && s.means.snaps[id] == chunks
    modifies s
    ensures s.Valid() && s.capacity >= cap && Zeroed(chunks, s.p.cs, cap)
    ensures s.Content() == Flat(chunks, s.p.cs, cap) + Zeros(s.capacity - cap)
  {
    assert SnapZeroed(s.p, s.b, s.means, id);
    s.fates := [];
    var restored := s.SnapshotRestore(id);
    RestoredView(s.p, s.b, s.means, id, s.capacity);
  }

  datatype Op =
    | Write(offset: nat, data: Bytes)
    | Erase(i: Index)
    | Grow(capacity: Index)
    | Create(id: string)
    | Delete(id: string)
    | Restore(id: string)
    | Gc

  ghost function DeletedBy(op: Op): set<string> {
    if op.Delete? then {op.id} else {}
  }

  ghost function Deleted(ops: seq<Op>): set<string> {
    if |ops| == 0 then {} else Deleted(ops[..|ops| - 1]) + DeletedBy(ops[|ops| - 1])
  }

  ghost predicate Kept(a: Bucket, m: Meaning, b: Bucket, n: Meaning, id: string)
    requires id in a.bins
  {
    && id in b.bins && b.bins[id] == a.bins[id]
    && id in m.snaps && id in n.snaps && n.snaps[id] == m.snaps[id]
    && id in a.manifests && id in b.manifests && b.manifests[id] == a.manifests[id]
  }

  ghost predicate AllKept(a: Bucket, m: Meaning, b: Bucket, n: Meaning, except: set<string>) {
    match a
    case Bucket(_, _, manifests, bins, _) =>
      && (forall id :: id in bins && id !in except ==> Kept(a, m, b, n, id))
      && (forall id :: id in manifests && id !in except ==> ManifestKept(a, b, id))
  }

  ghost predicate ManifestKept(a: Bucket, b: Bucket, id: string)
    requires id in a.manifests
  {
    id in b.manifests && b.manifests[id] == a.manifests[id]
  }

  lemma AllKeptMore(a: Bucket, k: Meaning, b: Bucket, m: Meaning, c: Bucket, n: Meaning, ops: seq<Op>, i: nat)
    requires i < |ops| && AllKept(a, k, b, m, Deleted(ops[..i])) && AllKept(b, m, c, n, DeletedBy(ops[i]))
    ensures AllKept(a, k, c, n, Deleted(ops[..i + 1]))
  {
    assert ops[..i + 1][..i] == ops[..i];
    forall id | id in a.bins && id !in Deleted(ops[..i + 1]) ensures Kept(a, k, c, n, id) {
      assert Kept(a, k, b, m, id);
      assert Kept(b, m, c, n, id);
    }
    forall id | id in a.manifests && id !in Deleted(ops[..i + 1]) ensures ManifestKept(a, c, id) {
      assert ManifestKept(a, b, id) && ManifestKept(b, c, id);
    }
  }

  lemma SameSnaps(p: Params, a: Bucket, put: set<Bytes>, m: Meaning, b: Bucket, n: Meaning)
    requires Good(p, a, put, m) && b.bins == a.bins && b.manifests == a.manifests && n.snaps == m.snaps
    ensures AllKept(a, m, b, n, {})
  {
    forall id | id in a.bins ensures Kept(a, m, b, n, id) {
      assert SnapshotOk(p, a, id);
    }
  }

  lemma DeleteKeeps(p: Params, a: Bucket, put: set<Bytes>, m: Meaning, b: Bucket, n: Meaning, id: string)
    requires Good(p, a, put, m) && OthersKept(a, m, b, n, id)
    ensures AllKept(a, m, b, n, {id})
  {
    forall j | j in a.bins && j != id ensures Kept(a, m, b, n, j) {
      assert SnapshotOk(p, a, j);
      assert OtherKept(a, m, b, n, j);
    }
    forall j | j in a.manifests && j != id ensures ManifestKept(a, b, j) {
      assert OtherKept(a, m, b, n, j);
    }
  }

  lemma CreateKeeps(p: Params, a: Bucket, put: set<Bytes>, m: Meaning, b: Bucket, n: Meaning, id: string)
    requires Good(p, a, put, m) && OthersKept(a, m, b, n, id)
    requires id in a.manifests ==> b == a && n == m
    ensures AllKept(a, m, b, n, {})
  {
    forall j | j in a.bins ensures Kept(a, m, b, n, j) {
      assert SnapshotOk(p, a, j);
      assert j != id ==> OtherKept(a, m, b, n, j);
    }
    forall j | j in a.manifests ensures ManifestKept(a, b, j) {
      assert j != id ==> OtherKept(a, m, b, n, j);
    }
  }

  /** The snapshot has the same list and manifest, and the same chunks unless two bodies collide. */
  ghost predicate Constant(p: Params, a: Bucket, b: Bucket, put: set<Bytes>, id: string)
    requires id in a.bins
  {
    && id in b.bins && b.bins[id] == a.bins[id]
    && id in a.manifests && id in b.manifests && b.manifests[id] == a.manifests[id]
    && Resolves(p, a, SnapRefs(p, a, id)) && Resolves(p, b, SnapRefs(p, b, id))
    && (NoCollision(p, put) ==> Chunks(p, b, SnapRefs(p, b, id)) == Chunks(p, a, SnapRefs(p, a, id)))
  }

  ghost predicate AllConstant(p: Params, a: Bucket, b: Bucket, put: set<Bytes>, except: set<string>) {
    forall id :: id in a.bins && id !in except ==> Constant(p, a, b, put, id)
  }

  lemma KeptAllConstant(p: Params, a: Bucket, before: set<Bytes>, m: Meaning, b: Bucket, put: set<Bytes>, n: Meaning, except: set<string>)
    requires Good(p, a, before, m) && Good(p, b, put, n) && before <= put && AllKept(a, m, b, n, except)
    ensures AllConstant(p, a, b, put, except)
  {
    forall id | id in a.bins && id !in except ensures Constant(p, a, b, put, id) {
      assert Kept(a, m, b, n, id);
      KeptConstant(p, a, before, m, b, put, n, id);
    }
  }

  lemma KeptConstant(p: Params, a: Bucket, before: set<Bytes>, m: Meaning, b: Bucket, put: set<Bytes>, n: Meaning, id: string)
    requires Good(p, a, before, m) && Good(p, b, put, n) && before <= put && id in a.bins && Kept(a, m, b, n, id)
    ensures Constant(p, a, b, put, id)
  {
    SnapshotResolves(p, a, id);
    SnapshotResolves(p, b, id);
    if NoCollision(p, put) {
      FewerCollide(p, before, put);
      assert SnapShows(p, a, m, id) && SnapShows(p, b, n, id);
    }
  }

  datatype GcStats = GcStats(deleted: nat, referenced: nat)

  /** What is marked when the lists of `unread` cannot be read and are skipped. */
  ghost predicate MarkedBut(p: Params, b: Bucket, unread: set<string>, h: Hash) {
    (exists i :: LiveNames(p, b, i, h)) || (exists id :: id !in unread && SnapNames(p, b, id, h))
  }

  /** All that the skipped lists name is named elsewhere too. */
  ghost predicate NamedElsewhere(p: Params, b: Bucket, unread: set<string>) {
    match b
    case Bucket(_, _, _, _, _) =>
      forall id, h :: id in unread && SnapNames(p, b, id, h) ==> MarkedBut(p, b, unread, h)
  }

  ghost predicate Keep(p: Params, b: Bucket, unread: set<string>, n: string) {
    p.fmt.parse(n).None? || MarkedBut(p, b, unread, p.fmt.parse(n).value)
  }

  /** What is left of the bucket. */
  ghost function SweptBut(p: Params, b: Bucket, unread: set<string>): Bucket {
    b.(objects := map n | n in b.objects && Keep(p, b, unread, n) :: b.objects[n])
  }

  ghost predicate Marks(p: Params, b: Bucket, unread: set<string>, marked: set<Hash>) {
    match b
    case Bucket(_, _, _, _, _) => forall h :: h in marked <==> MarkedBut(p, b, unread, h)
  }

  lemma OneMarking(p: Params, b: Bucket, unread: set<string>, x: set<Hash>, y: set<Hash>)
    requires Marks(p, b, unread, x) && Marks(p, b, unread, y)
    ensures x == y
  {
    assert forall h :: h in x <==> h in y;
  }

  /** `b` is `was` without the objects outside `rest` that are not to be kept. */
  ghost predicate Swept(p: Params, was: Bucket, unread: set<string>, b: Bucket, rest: set<string>) {
    match b
    case Bucket(_, objects, _, _, _) =>
      && (forall n :: n in objects ==>
            n in was.objects && objects[n] == was.objects[n] && (n in rest || Keep(p, was, unread, n)))
      && (forall n :: n in was.objects && (n in rest || Keep(p, was, unread, n)) ==> n in objects)
  }

  lemma SweptStart(p: Params, b: Bucket, unread: set<string>)
    ensures Swept(p, b, unread, b, b.objects.Keys)
  {
  }

  ghost predicate KeepsMarked(p: Params, was: Bucket, unread: set<string>, b: Bucket) {
    && (forall n :: n in b.objects ==> n in was.objects && b.objects[n] == was.objects[n])
    && (forall n :: n in was.objects && Keep(p, was, unread, n) ==> n in b.objects)
  }

  lemma SweptIs(p: Params, was: Bucket, unread: set<string>, b: Bucket)
    requires b == was.(objects := b.objects) && Swept(p, was, unread, b, {})
    ensures b == SweptBut(p, was, unread)
  {
  }

  /** What is not marked is referenced by nobody, if the skipped lists name nothing of their own. */
  lemma Unreferenced(p: Params, b: Bucket, unread: set<string>, h: Hash)
    requires NamedElsewhere(p, b, unread) && !MarkedBut(p, b, unread, h)
    ensures !Referenced(p, b, h)
  {
  }

  /** The name is that of a hash a live pointer or a snapshot names. */
  ghost predicate NamesReferenced(p: Params, b: Bucket, n: string) {
    exists h :: Referenced(p, b, h) && n == p.fmt.name(h)
  }

  lemma SweptLess(p: Params, was: Bucket, unread: set<string>, b: Bucket, rest: set<string>, n: string)
    requires Swept(p, was, unread, b, rest) && n in rest
    ensures Swept(p, was, unread, if Keep(p, was, unread, n) then b else DropObject(b, n), rest - {n})
  {
  }

  lemma OneFewer(b: Bucket, n: string)
    requires n in b.objects
    ensures |DropObject(b, n).objects| == |b.objects| - 1
  {
    var less := b.objects - {n};
    assert b.objects == less[n := b.objects[n]];
  }

  lemma SweptKeeps(p: Params, was: Bucket, unread: set<string>, b: Bucket, rest: set<string>)
    requires Swept(p, was, unread, b, rest)
    ensures KeepsMarked(p, was, unread, b)
  {
  }

  lemma SameReferenced(p: Params, was: Bucket, b: Bucket, h: Hash)
    requires b == was.(objects := b.objects)
    ensures Referenced(p, was, h) <==> Referenced(p, b, h)
  {
    assert forall i :: LiveNames(p, was, i, h) <==> LiveNames(p, b, i, h);
    assert forall id :: SnapNames(p, was, id, h) <==> SnapNames(p, b, id, h);
  }

  /** With every list read, what is left are exactly the objects that are named. */
  lemma SweptExact(p: Params, b: Bucket)
    requires Invert(p.fmt) && Safe(p, b)
    ensures NamedElsewhere(p, b, {})
    ensures forall n :: n in SweptBut(p, b, {}).objects <==> n in b.objects && NamesReferenced(p, b, n)
  {
    forall n | n in b.objects ensures Keep(p, b, {}, n) <==> NamesReferenced(p, b, n) {
      assert Named(p, b, n);
      var h := p.hash(b.objects[n]);
      assert p.fmt.parse(n) == Some(h);
      assert MarkedBut(p, b, {}, h) <==> Referenced(p, b, h) by {
        assert forall id :: id !in {} ==> (SnapNames(p, b, id, h) <==> SnapNames(p, b, id, h));
      }
      if NamesReferenced(p, b, n) {
        var g :| Referenced(p, b, g) && n == p.fmt.name(g);
        assert p.fmt.parse(n) == Some(g);
      }
    }
  }

  lemma SameNames(p: Params, was: Bucket, b: Bucket)
    requires b == was.(objects := b.objects) && forall n :: n in b.objects ==> NamesReferenced(p, was, n)
    ensures forall n :: n in b.objects ==> NamesReferenced(p, b, n)
  {
    forall n | n in b.objects ensures NamesReferenced(p, b, n) {
      var h :| Referenced(p, was, h) && n == p.fmt.name(h);
      SameReferenced(p, was, b, h);
    }
  }

  lemma BinGone(p: Params, b: Bucket, m: Meaning, id: string)
    requires SnapsZeroed(p, b, m)
    ensures SnapsZeroed(p, Effect(p, b, DeleteBin(id)), m.(snaps := m.snaps - {id}))
    ensures OthersKept(b, m, Effect(p, b, DeleteBin(id)), m.(snaps := m.snaps - {id}), id)
  {
    var c, n := Effect(p, b, DeleteBin(id)), m.(snaps := m.snaps - {id});
    forall j | j in n.snaps ensures SnapZeroed(p, c, n, j) {
      assert SnapZeroed(p, b, m, j);
    }
  }

  lemma ManifestGone(p: Params, b: Bucket, m: Meaning, id: string)
    requires SnapsZeroed(p, b, m) && id !in m.snaps
    ensures SnapsZeroed(p, Effect(p, b, DeleteManifest(id)), m)
    ensures OthersKept(b, m, Effect(p, b, DeleteManifest(id)), m, id)
  {
    var c := Effect(p, b, DeleteManifest(id));
    forall j | j in m.snaps ensures SnapZeroed(p, c, m, j) {
      assert SnapZeroed(p, b, m, j);
    }
  }

  lemma KeptByGc(a: Bucket, k: Meaning, was: Bucket, b: Bucket, m: Meaning, id: string)
    requires OthersKept(a, k, was, m, id) && b == was.(objects := b.objects)
    ensures OthersKept(a, k, b, m, id)
  {
    forall j | j != id ensures OtherKept(a, k, b, m, j) {
      assert OtherKept(a, k, was, m, j);
    }
  }

  // --------------------------------------- when a list does not read back

  /** A collection that skips lists keeps the bucket safe iff all they name is named elsewhere too. */
  lemma SkippedListsIff(p: Params, b: Bucket, unread: set<string>)
    requires Invert(p.fmt) && Safe(p, b)
    ensures Safe(p, SweptBut(p, b, unread)) <==> NamedElsewhere(p, b, unread)
  {
    var c := SweptBut(p, b, unread);
    if Safe(p, c) {
      forall id, h | id in unread && SnapNames(p, b, id, h) ensures MarkedBut(p, b, unread, h) {
        assert SnapshotOk(p, c, id);
        assert Has(p, c, h);
        assert p.fmt.parse(p.fmt.name(h)) == Some(h);
      }
    }
    if NamedElsewhere(p, b, unread) {
      SkippedSafe(p, b, unread);
    }
  }

  lemma SkippedSafe(p: Params, b: Bucket, unread: set<string>)
    requires Invert(p.fmt) && Safe(p, b)
    requires NamedElsewhere(p, b, unread)
    ensures Safe(p, SweptBut(p, b, unread))
  {
    var c := SweptBut(p, b, unread);
    forall n | n in c.objects ensures Named(p, c, n) {
      assert Named(p, b, n);
    }
    forall i | i in c.pointers ensures PointerOk(p, c, i) {
      assert PointerOk(p, b, i);
      var h := p.fmt.target(b.pointers[i]).value;
      assert LiveNames(p, b, i, h);
      assert p.fmt.parse(p.fmt.name(h)) == Some(h);
    }
    forall id | id in c.bins ensures SnapshotOk(p, c, id) {
      assert SnapshotOk(p, b, id);
      forall k | 0 <= k < |Records(p, b.bins[id])| ensures Has(p, c, Records(p, b.bins[id])[k].hash) {
        var h := Records(p, b.bins[id])[k].hash;
        assert SnapNames(p, b, id, h);
        assert p.fmt.parse(p.fmt.name(h)) == Some(h);
      }
    }
  }

  /** A ready snapshot whose chunk the live volume no longer has. */
  function OnlyInSnapshot(p: Params, id: string, m: Manifest, i: Index, body: Bytes): Bucket {
    Bucket(map[], map[p.fmt.name(p.hash(body)) := body], map[id := m],
           map[id := p.fmt.bin([ChunkRef(i, p.hash(body))])], m.capacity)
  }

  /** One failed read of its list, and the next collection deletes the snapshot's chunk. */
  lemma SkippedListLoses(p: Params, id: string, m: Manifest, i: Index, body: Bytes)
    requires Invert(p.fmt) && p.decode(body).Ok? && m.id == id && m.state == Ready
    ensures var b := OnlyInSnapshot(p, id, m, i, body);
            Safe(p, b) && !Safe(p, SweptBut(p, b, {id})) && SweptBut(p, b, {id}).objects == map[]
  {
    var b, h := OnlyInSnapshot(p, id, m, i, body), p.hash(body);
    var refs := [ChunkRef(i, h)];
    assert p.fmt.records(p.fmt.bin(refs)) == Ok(refs) && p.fmt.parse(p.fmt.name(h)) == Some(h);
    assert Records(p, b.bins[id]) == refs && refs[0].hash == h;
    assert SnapNames(p, b, id, h);
    assert !MarkedBut(p, b, {id}, h);
    SkippedListsIff(p, b, {id});
  }

  // ------------------------------------------------------------- marking

  /** The hashes of the live pointers and of every listed `chunks.bin` that is read and reads back. */
  method MarkAll(p: Params, b: Bucket, unread: set<string>) returns (marked: set<Hash>)
    requires Safe(p, b)
    ensures Marks(p, b, unread, marked)
  {
    var live := MarkLive(p, b);
    marked := MarkSnapshots(p, b, unread, live);
    forall id, h | SnapNames(p, b, id, h) ensures id in b.manifests {
      assert SnapshotOk(p, b, id);
    }
  }

  method MarkLive(p: Params, b: Bucket) returns (marked: set<Hash>)
    requires Safe(p, b)
    ensures forall h :: h in marked <==> exists i :: LiveNames(p, b, i, h)
  {
    marked := {};
    var rest := b.pointers.Keys;
    while rest != {}
      invariant rest <= b.pointers.Keys
      invariant forall h :: h in marked <==> exists i :: i !in rest && LiveNames(p, b, i, h)
      decreases rest
    {
      var i :| i in rest;
      assert PointerOk(p, b, i);
      var h := p.fmt.target(b.pointers[i]).value;
      assert LiveNames(p, b, i, h);
      marked := marked + {h};
      rest := rest - {i};
    }
  }

  method MarkSnapshots(p: Params, b: Bucket, unread: set<string>, live: set<Hash>) returns (marked: set<Hash>)
    ensures forall h :: h in marked <==>
              h in live || exists id :: id in b.manifests && id !in unread && SnapNames(p, b, id, h)
  {
    marked := live;
    var rest := b.manifests.Keys;
    while rest != {}
      invariant rest <= b.manifests.Keys
      invariant forall h :: h in marked <==>
                  h in live || exists id :: id in b.manifests && id !in unread && id !in rest && SnapNames(p, b, id, h)
      decreases rest
    {
      var id :| id in rest;
      var hashes := {};
      if id in b.bins && id !in unread {
        hashes := HashesOf(p, b.bins[id]);
      }
      assert forall h :: h in hashes <==> id !in unread && SnapNames(p, b, id, h);
      marked := marked + hashes;
      rest := rest - {id};
    }
  }

  /** The hashes of a list; of one that does not read back, none. */
  method HashesOf(p: Params, bin: Bytes) returns (hashes: set<Hash>)
    ensures forall h :: h in hashes <==> Mentions(p, bin, h)
  {
    hashes := set k | 0 <= k < |Records(p, bin)| :: Records(p, bin)[k].hash;
  }

  datatype RestoreStats = RestoreStats(written: nat, deleted: nat, capacity: nat)

  function Max(a: nat, b: nat): nat {
    if a >= b then a else b
  }

  /** What a restore asks of a manifest: that it is there, ready and of this geometry. */
  function RestoreCheck(p: Params, b: Bucket, id: string): (r: Outcome<Manifest>)
    ensures r.Ok? ==> id in b.manifests && r.value == b.manifests[id]
  {
    if id !in b.manifests then Err(Other) else
    var m := b.manifests[id];
    if m.state != Ready then Err(Other)
    else if m.chunkSize != p.cs || m.blockSize != p.bs then Err(GeometryMismatch)
    else if m.algorithm != p.algorithm then Err(GeometryMismatch)
    else Ok(m)
  }

  /** The snapshot was taken with this volume's chunks, blocks and compression. */
  predicate SameShape(p: Params, m: Manifest) {
    m.chunkSize == p.cs && m.blockSize == p.bs && m.algorithm == p.algorithm
  }

  predicate Restorable(p: Params, b: Bucket, id: string) {
    id in b.manifests && b.manifests[id].state == Ready && SameShape(p, b.manifests[id]) && id in b.bins
  }

  /**
   How far a creation has come: nothing there, the manifest that says `Creating` with or
   without the list, or a complete list under the manifest that says `Ready`.
   */
  ghost predicate CreateStage(p: Params, b: Bucket, id: string, creating: Manifest) {
    match b
    case Bucket(pointers, _, manifests, bins, _) =>
      || (id !in manifests && id !in bins)
      || (id in manifests && manifests[id] == creating)
      || (id in manifests && manifests[id] == creating.(chunkCount := |pointers|, state := Ready)
          && id in bins && SnapRefs(p, b, id) == Live(p, b))
  }

  /** With the list in place, the last manifest completes the snapshot, or has not landed. */
  lemma CreateReady(p: Params, b: Bucket, id: string, creating: Manifest, ready: Manifest)
    requires id in b.manifests && b.manifests[id] == creating && id in b.bins && SnapRefs(p, b, id) == Live(p, b)
    requires creating.id == id && ready == creating.(chunkCount := |b.pointers|, state := Ready)
    ensures CreateStage(p, b, id, creating) && CreateStage(p, SetManifest(b, ready), id, creating)
    ensures SnapRefs(p, SetManifest(b, ready), id) == Live(p, SetManifest(b, ready))
  {
  }

  ghost predicate HasRecord(p: Params, b: Bucket, id: string, r: ChunkRef) {
    id in b.bins && exists k :: 0 <= k < |Records(p, b.bins[id])| && Records(p, b.bins[id])[k] == r
  }

  /** `live` is the table plus pointers from `rest` that the table has not. */
  ghost predicate Overlaid(live: Refs, table: Refs, rest: set<Index>) {
    && (forall i :: i in table ==> i in live && live[i] == table[i])
    && (forall i :: i in live ==> i in table || i in rest)
  }

  /** How many of the listed have been dropped, with `rest` still to come. */
  ghost function Dropped(listing: set<Index>, rest: set<Index>, keep: set<Index>): nat {
    |listing - rest - keep|
  }

  lemma DropCount(listing: set<Index>, rest: set<Index>, keep: set<Index>, i: Index)
    requires i in rest && rest <= listing
    ensures Dropped(listing, rest - {i}, keep) == Dropped(listing, rest, keep) + if i in keep then 0 else 1
  {
    assert listing - (rest - {i}) - keep == listing - rest - keep + (if i in keep then {} else {i});
  }

  lemma DropEnds(listing: set<Index>, keep: set<Index>)
    ensures Dropped(listing, listing, keep) == 0 && Dropped(listing, {}, keep) == |listing - keep|
  {
    assert listing - listing - keep == {} && listing - {} - keep == listing - keep;
  }

  lemma OverlaidLess(live: Refs, table: Refs, rest: set<Index>, i: Index)
    requires Overlaid(live, table, rest) && i in rest
    ensures Overlaid(if i in table then live else live - {i}, table, rest - {i})
  {
  }

  lemma OverlaidDone(live: Refs, table: Refs)
    requires Overlaid(live, table, {})
    ensures live == table
  {
    assert live.Keys == table.Keys;
  }

  lemma RecordData(p: Params, b: Bucket, put: set<Bytes>, m: Meaning, id: string, r: ChunkRef)
    requires Usable(p) && Good(p, b, put, m) && HasRecord(p, b, id, r)
    ensures id in m.snaps && Has(p, b, r.hash)
    ensures NoCollision(p, put) ==> p.decode(b.objects[p.fmt.name(r.hash)]) == Ok(Chunk(m.snaps[id], p.cs, r.index))
  {
    var refs := Records(p, b.bins[id]);
    assert SnapshotOk(p, b, id);
    var k :| 0 <= k < |refs| && refs[k] == r;
    TableAt(refs, k);
    if NoCollision(p, put) {
      assert SnapShows(p, b, m, id);
      ShownData(p, b, Table(refs), m.snaps[id], r.index);
    }
  }

  lemma ZeroedPut(p: Params, b: Bucket, m: Meaning, id: string, i: nat, cap: nat)
    requires SnapsZeroed(p, b, m) && Zeroed(m.chunks, p.cs, cap) && id in m.snaps && id in b.manifests && b.manifests[id].capacity <= cap
    ensures Zeroed(m.chunks[i := Chunk(m.snaps[id], p.cs, i)], p.cs, cap)
  {
    assert SnapZeroed(p, b, m, id);
  }

  lemma OverlayListed(p: Params, b: Bucket, refs: seq<ChunkRef>, listing: set<Index>)
    requires listing == b.pointers.Keys
    ensures Overlaid(Overlay(Live(p, b), refs, |refs|), Table(refs), listing)
  {
    OverlayTable(Live(p, b), refs, |refs|);
    assert refs[..|refs|] == refs;
  }

  /** The live pointers once the first `n` records have been put. */
  ghost function Overlay(was: Refs, refs: seq<ChunkRef>, n: nat): Refs
    requires n <= |refs|
  {
    if n == 0 then was else Overlay(was, refs, n - 1)[refs[n - 1].index := refs[n - 1].hash]
  }

  lemma {:induction false} OverlayTable(was: Refs, refs: seq<ChunkRef>, n: nat)
    requires n <= |refs|
    ensures Overlaid(Overlay(was, refs, n), Table(refs[..n]), was.Keys)
  {
    if n > 0 {
      OverlayTable(was, refs, n - 1);
      assert refs[..n][..n - 1] == refs[..n - 1];
    }
  }

  lemma {:induction false} TableKeys(refs: seq<ChunkRef>)
    ensures Table(refs).Keys == set k | 0 <= k < |refs| :: refs[k].index
  {
    var n := |refs|;
    if n > 0 {
      var init := refs[..n - 1];
      TableKeys(init);
      forall i | i in Table(refs) ensures exists k :: 0 <= k < n && refs[k].index == i {
        TableFrom(refs, i);
      }
      forall k | 0 <= k < n ensures refs[k].index in Table(refs) {
        if k < n - 1 {
          assert init[k].index in Table(init).Keys;
        }
      }
    }
  }

  /** Once the live pointers are the snapshot's, the volume means what the snapshot means. */
  lemma Restored(p: Params, b: Bucket, put: set<Bytes>, m: Meaning, id: string, cap: nat)
    requires Good(p, b, put, m) && id in b.bins && id in b.manifests && b.manifests[id].capacity <= cap && SnapsZeroed(p, b, m)
    requires Live(p, b) == SnapRefs(p, b, id)
    ensures id in m.snaps && Good(p, b, put, m.(chunks := m.snaps[id]))
    ensures Zeroed(m.snaps[id], p.cs, cap) && SnapsZeroed(p, b, m.(chunks := m.snaps[id]))
  {
    var n := m.(chunks := m.snaps[id]);
    assert SnapZeroed(p, b, m, id);
    forall j | j in n.snaps ensures SnapZeroed(p, b, n, j) {
      assert SnapZeroed(p, b, m, j);
    }
    if NoCollision(p, put) {
      assert SnapShows(p, b, m, id);
      forall j | j in b.bins ensures SnapShows(p, b, n, j) {
        assert SnapShows(p, b, m, j);
      }
    }
  }

  /** Seen as bytes: the snapshot up to its capacity, and zeros beyond. */
  lemma RestoredView(p: Params, b: Bucket, m: Meaning, id: string, cap: nat)
    requires id in m.snaps && SnapsZeroed(p, b, m) && id in b.manifests && b.manifests[id].capacity <= cap && m.chunks == m.snaps[id]
    ensures Whole(m.snaps[id], p.cs) && p.cs > 0
    ensures Flat(m.chunks, p.cs, cap) == Flat(m.snaps[id], p.cs, b.manifests[id].capacity) + Zeros(cap - b.manifests[id].capacity)
  {
    assert SnapZeroed(p, b, m, id);
    FlatGrow(m.snaps[id], p.cs, b.manifests[id].capacity, cap);
  }

  /** The name of a snapshot: 1 to 128 letters, digits, dashes, underscores and dots. */
  predicate ValidId(id: string) {
    0 < |id| <= 128 && forall k :: 0 <= k < |id| ==> IdChar(id[k])
  }

  /** The ASCII codes that a name may be made of; so a name has no slash and is one level of a key. */
  lemma IdCodes(id: string)
    ensures ValidId(id) <==>
              && 1 <= |id| <= 128
              && forall k :: 0 <= k < |id| ==>
                   var c := id[k] as int; 0x30 <= c <= 0x39 || 0x41 <= c <= 0x5A || 0x61 <= c <= 0x7A || c in {0x2D, 0x2E, 0x5F}
    ensures ValidId(id) ==> '/' !in id
  {
    assert ValidId(id) ==> forall k :: 0 <= k < |id| ==> IdChar(id[k]);
  }

  predicate IdChar(c: char) {
    'A' <= c <= 'Z' || 'a' <= c <= 'z' || '0' <= c <= '9' || c == '-' || c == '_' || c == '.'
  }

  ghost predicate OtherKept(a: Bucket, m: Meaning, b: Bucket, n: Meaning, j: string) {
    && (j in b.manifests <==> j in a.manifests) && (j in a.manifests && j in b.manifests ==> b.manifests[j] == a.manifests[j])
    && (j in b.bins <==> j in a.bins) && (j in a.bins && j in b.bins ==> b.bins[j] == a.bins[j])
    && (j in n.snaps <==> j in m.snaps) && (j in m.snaps && j in n.snaps ==> n.snaps[j] == m.snaps[j])
  }

  /** Every snapshot but `id` is what it was: manifest, list and meaning. */
  ghost predicate OthersKept(a: Bucket, m: Meaning, b: Bucket, n: Meaning, id: string) {
    match n
    case Meaning(_, _) => forall j :: j != id ==> OtherKept(a, m, b, n, j)
  }

  ghost predicate IsLive(p: Params, b: Bucket, r: ChunkRef) {
    r.index in b.pointers && p.fmt.target(b.pointers[r.index]) == Ok(r.hash) && Has(p, b, r.hash)
  }

  /** The list has every live pointer once. */
  ghost predicate ListsLive(p: Params, b: Bucket, refs: seq<ChunkRef>) {
    && Distinct(refs)
    && (forall k :: 0 <= k < |refs| ==> IsLive(p, b, refs[k]))
    && (forall i :: i in b.pointers ==> exists k :: 0 <= k < |refs| && refs[k].index == i)
  }

  /** The live pointers as a list in index order. */
  method CollectLiveRefs(p: Params, b: Bucket) returns (refs: seq<ChunkRef>)
    requires Safe(p, b)
    ensures ListsLive(p, b, refs) && |refs| == |b.pointers|
  {
    var idxs := MemoryStore.Sorted(b.pointers.Keys);
    refs := [];
    var n: nat := 0;
    while n < |idxs|
      invariant n == |refs| <= |idxs|
      invariant forall k :: 0 <= k < n ==> refs[k].index == idxs[k] && IsLive(p, b, refs[k])
    {
      assert idxs[n] in idxs;
      var i: Index := idxs[n];
      assert PointerOk(p, b, i);
      refs := refs + [ChunkRef(i, p.fmt.target(b.pointers[i]).value)];
      n := n + 1;
    }
    forall i | i in b.pointers ensures exists k :: 0 <= k < |refs| && refs[k].index == i {
      assert i in idxs;
      var k :| 0 <= k < |idxs| && idxs[k] == i;
      assert refs[k].index == i;
    }
  }

  /** The `chunks.bin` of the live pointers, fit to be put as that of snapshot `id`. */
  method LiveBin(p: Params, b: Bucket, ghost put: set<Bytes>, ghost m: Meaning, id: string) returns (bin: Bytes)
    requires Invert(p.fmt) && Good(p, b, put, m) && id in b.manifests && |b.pointers| < U64
    ensures MaySend(p, b, put, PutBin(id, bin), m.(snaps := m.snaps[id := m.chunks]))
    ensures Table(Records(p, bin)) == Live(p, b)
  {
    var refs := CollectLiveRefs(p, b);
    bin := p.fmt.bin(refs);
    GoodPutList(p, b, put, m, id, refs);
  }

  lemma UnlistedHasNoBin(p: Params, b: Bucket, id: string)
    requires Safe(p, b) && id !in b.manifests
    ensures id !in b.bins
  {
    assert id in b.bins ==> SnapshotOk(p, b, id);
  }

  lemma KeptSame(a: Bucket, m: Meaning, id: string)
    ensures OthersKept(a, m, a, m, id)
  {
  }

  lemma KeptMore(a: Bucket, k: Meaning, b: Bucket, m: Meaning, c: Bucket, n: Meaning, id: string)
    requires OthersKept(a, k, b, m, id) && OthersKept(b, m, c, n, id)
    ensures OthersKept(a, k, c, n, id)
  {
    forall j | j != id ensures OtherKept(a, k, c, n, j) {
      assert OtherKept(a, k, b, m, j) && OtherKept(b, m, c, n, j);
    }
  }

  lemma ManifestZeroed(p: Params, b: Bucket, m: Meaning, manifest: Manifest)
    requires SnapsZeroed(p, b, m)
    requires manifest.id in m.snaps ==> manifest.id in b.manifests && b.manifests[manifest.id].capacity == manifest.capacity
    ensures SnapsZeroed(p, Effect(p, b, PutManifest(manifest)), m)
    ensures OthersKept(b, m, Effect(p, b, PutManifest(manifest)), m, manifest.id)
  {
    forall id | id in m.snaps ensures SnapZeroed(p, SetManifest(b, manifest), m, id) {
      assert SnapZeroed(p, b, m, id);
    }
  }

  lemma GoodPutList(p: Params, b: Bucket, put: set<Bytes>, m: Meaning, id: string, refs: seq<ChunkRef>)
    requires Invert(p.fmt) && Good(p, b, put, m) && id in b.manifests && ListsLive(p, b, refs) && |refs| < U64
    ensures MaySend(p, b, put, PutBin(id, p.fmt.bin(refs)), m.(snaps := m.snaps[id := m.chunks]))
    ensures Table(Records(p, p.fmt.bin(refs))) == Live(p, b)
  {
    var bin := p.fmt.bin(refs);
    assert Records(p, bin) == refs;
    ListsLiveTable(p, b, refs);
    assert BinOk(p, b, bin) by {
      forall k | 0 <= k < |refs| ensures Has(p, b, refs[k].hash) {
        assert IsLive(p, b, refs[k]);
      }
    }
    GoodPutBin(p, b, put, m, id, bin, m.chunks);
  }

  lemma ListZeroed(p: Params, b: Bucket, m: Meaning, id: string, bin: Bytes)
    requires SnapsZeroed(p, b, m) && id in b.manifests && Zeroed(m.chunks, p.cs, b.manifests[id].capacity)
    ensures SnapsZeroed(p, Effect(p, b, PutBin(id, bin)), m.(snaps := m.snaps[id := m.chunks]))
    ensures OthersKept(b, m, Effect(p, b, PutBin(id, bin)), m.(snaps := m.snaps[id := m.chunks]), id)
  {
    forall j | j in m.snaps ensures SnapZeroed(p, b, m, j) {
    }
  }

  lemma ListsLiveTable(p: Params, b: Bucket, refs: seq<ChunkRef>)
    requires Safe(p, b) && ListsLive(p, b, refs)
    ensures Table(refs) == Live(p, b)
  {
    LiveResolves(p, b);
    forall i | i in Table(refs) ensures i in Live(p, b) && Table(refs)[i] == Live(p, b)[i] {
      TableFrom(refs, i);
      var k :| 0 <= k < |refs| && refs[k] == ChunkRef(i, Table(refs)[i]);
      assert IsLive(p, b, refs[k]);
    }
    forall i | i in b.pointers ensures i in Table(refs) {
      var k :| 0 <= k < |refs| && refs[k].index == i;
      TableAt(refs, k);
    }
    assert Table(refs).Keys == Live(p, b).Keys;
  }

  ghost function Patched(img: Image, cs: nat, c: Cursor, patch: Bytes): Image
    requires Whole(img, cs) && c.within + |patch| <= cs
  {
    img[c.idx := Splice(Chunk(img, cs, c.idx), c.within, patch)]
  }

  lemma PieceWritten(img: Image, cs: nat, cap: nat, was: Bytes, offset: nat, data: Bytes, n: nat, c: Cursor, patch: Bytes)
    requires cs > 0 && Whole(img, cs) && offset + |data| <= |was| == cap && n <= |data|
    requires Under(c, cs, offset + n, |data| - n) && patch == data[n..n + c.take]
    requires Flat(img, cs, cap) == Splice(was, offset, data[..n])
    ensures Whole(Patched(img, cs, c, patch), cs)
    ensures Flat(Patched(img, cs, c, patch), cs, cap) == Splice(was, offset, data[..n + c.take])
  {
    FlatSplice(img, cs, cap, c.idx, c.within, patch);
    SpliceMore(was, offset, data, n, c.take);
  }

  lemma ByteUnder(img: Image, cs: nat, cap: nat, c: Cursor, offset: nat, n: nat, k: nat)
    requires cs > 0 && Whole(img, cs) && c.idx * cs + c.within == offset + n
    requires n <= k < n + c.take && c.within + c.take <= cs && offset + k < cap
    ensures Flat(img, cs, cap)[offset + k] == Chunk(img, cs, c.idx)[c.within + (k - n)]
  {
    DivMod(cs, c.idx, c.within + (k - n));
  }

  lemma BelowU64(cs: nat, c: Cursor, cap: nat)
    requires cs > 0 && c.idx * cs + c.within + c.take <= cap < U64 && c.take > 0
    ensures c.idx < U64
  {
    IndexBelowOffset(cs, c.idx);
  }
}
