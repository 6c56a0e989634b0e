/** What every request to the bucket of a copy-on-write volume keeps. */
module CowInvariant {
  import opened Volume
  import opened SnapshotFormat
  import opened CowBucket

  /** Requests that change the bucket, one key each. */
  datatype Request =
    | PutObject(body: Bytes)
    | DeleteObject(name: string)
    | PutPointer(i: Index, h: Hash)
    | DeletePointer(i: Index)
    | PutManifest(m: Manifest)
    | DeleteManifest(id: string)
    | PutBin(id: string, bin: Bytes)
    | DeleteBin(id: string)
    | PutMeta(capacity: nat)

  function Effect(p: Params, b: Bucket, r: Request): Bucket {
    match r
    case PutObject(body) => AddObject(p, b, body)
    case DeleteObject(n) => DropObject(b, n)
    case PutPointer(i, h) => SetPointer(p, b, i, h)
    case DeletePointer(i) => DropPointer(b, i)
    case PutManifest(m) => SetManifest(b, m)
    case DeleteManifest(id) => DropManifest(b, id)
    case PutBin(id, bin) => SetBin(b, id, bin)
    case DeleteBin(id) => DropBin(b, id)
    case PutMeta(capacity) => b.(meta := capacity)
  }

  /** The bodies put once the request has been sent. */
  ghost function Sent(put: set<Bytes>, r: Request): set<Bytes> {
    if r.PutObject? then put + {r.body} else put
  }

  /** What the volume and its snapshots are meant to hold, chunk by chunk. */
  datatype Meaning = Meaning(chunks: Image, snaps: map<string, Image>)

  ghost predicate Shows(p: Params, b: Bucket, refs: Refs, img: Image) {
    Resolves(p, b, refs) && Chunks(p, b, refs) == img
  }

  lemma ShownData(p: Params, b: Bucket, refs: Refs, img: Image, i: Index)
    requires Shows(p, b, refs, img) && i in refs
    ensures i in img && Has(p, b, refs[i]) && p.decode(b.objects[p.fmt.name(refs[i])]) == Ok(img[i])
  {
    assert Named(p, b, p.fmt.name(refs[i]));
  }

  ghost function SnapRefs(p: Params, b: Bucket, id: string): Refs
    requires id in b.bins
  {
    Table(Records(p, b.bins[id]))
  }

  ghost predicate SnapShows(p: Params, b: Bucket, m: Meaning, id: string)
    requires id in b.bins
  {
    id in m.snaps && Shows(p, b, SnapRefs(p, b, id), m.snaps[id])
  }

  /** The bucket holds what is meant. */
  ghost predicate Faithful(p: Params, b: Bucket, m: Meaning) {
    Shows(p, b, Live(p, b), m.chunks) && forall id :: id in b.bins ==> SnapShows(p, b, m, id)
  }

  /**
   `Safe`, whatever the hash does; and, unless two of the bodies ever put collide, the
   bucket holds what is meant.
   */
  ghost predicate Good(p: Params, b: Bucket, put: set<Bytes>, m: Meaning) {
    match m
    case Meaning(_, snaps) =>
      && Safe(p, b) && AllPut(b, put)
      && snaps.Keys == b.bins.Keys
      && (forall id :: id in b.bins ==> Distinct(Records(p, b.bins[id])))
      && (NoCollision(p, put) ==> Faithful(p, b, m))
  }

  /** Sending the request leaves the invariant true, with `next` for meaning. */
  ghost predicate MaySend(p: Params, b: Bucket, put: set<Bytes>, r: Request, next: Meaning) {
    match r
    case PutObject(body) => Good(p, AddObject(p, b, body), put + {body}, next)
    case _ => Good(p, Effect(p, b, r), put, next)
  }

  lemma FewerCollide(p: Params, less: set<Bytes>, put: set<Bytes>)
    requires less <= put && NoCollision(p, put)
    ensures NoCollision(p, less)
  {
  }

  lemma GoodMore(p: Params, b: Bucket, put: set<Bytes>, more: set<Bytes>, m: Meaning)
    requires Good(p, b, put, m) && put <= more
    ensures Good(p, b, more, m)
  {
    if NoCollision(p, more) {
      FewerCollide(p, put, more);
    }
  }

  // -------------------------------------------------------- the pool changes

  lemma ShowsSame(p: Params, a: Bucket, b: Bucket, put: set<Bytes>, refs: Refs, img: Image)
    requires Invert(p.fmt) && NoCollision(p, put) && AllPut(a, put) && AllPut(b, put)
    requires Shows(p, a, refs, img) && Resolves(p, b, refs)
    ensures Shows(p, b, refs, img)
  {
    SameChunks(p, a, b, put, refs);
  }

  /** Requests that change only the pool keep the meaning. */
  lemma PoolFaithful(p: Params, a: Bucket, b: Bucket, put: set<Bytes>, m: Meaning)
    requires Invert(p.fmt) && NoCollision(p, put) && AllPut(a, put) && AllPut(b, put) && Safe(p, b)
    requires b == a.(objects := b.objects) && Faithful(p, a, m)
    ensures Faithful(p, b, m)
  {
    LiveResolves(p, b);
    assert Live(p, a) == Live(p, b);
    ShowsSame(p, a, b, put, Live(p, a), m.chunks);
    forall id | id in b.bins ensures SnapShows(p, b, m, id) {
      assert SnapShows(p, a, m, id);
      SnapshotResolves(p, b, id);
      ShowsSame(p, a, b, put, SnapRefs(p, a, id), m.snaps[id]);
    }
  }

  lemma GoodPutObject(p: Params, b: Bucket, put: set<Bytes>, m: Meaning, body: Bytes)
    requires Invert(p.fmt) && Good(p, b, put, m) && p.decode(body).Ok?
    ensures MaySend(p, b, put, PutObject(body), m)
  {
    AddObjectSafe(p, b, body);
    if NoCollision(p, put + {body}) {
      FewerCollide(p, put, put + {body});
      PoolFaithful(p, b, AddObject(p, b, body), put + {body}, m);
    }
  }

  lemma GoodDeleteObject(p: Params, b: Bucket, put: set<Bytes>, m: Meaning, n: string)
    requires Invert(p.fmt) && Good(p, b, put, m) && p.fmt.parse(n).Some? && !Referenced(p, b, p.fmt.parse(n).value)
    ensures MaySend(p, b, put, DeleteObject(n), m)
  {
    DropObjectSafe(p, b, n);
    if NoCollision(p, put) {
      PoolFaithful(p, b, DropObject(b, n), put, m);
    }
  }

  // ---------------------------------------------------- the pool stays as it is

  /** References mean what the pool says, whatever else is in the bucket. */
  lemma SamePool(p: Params, a: Bucket, b: Bucket, refs: Refs, img: Image)
    requires a.objects == b.objects && Shows(p, a, refs, img)
    ensures Shows(p, b, refs, img)
  {
    forall i | i in refs ensures Has(p, b, refs[i]) && Named(p, b, p.fmt.name(refs[i])) {
      assert Named(p, a, p.fmt.name(refs[i]));
    }
    assert Chunks(p, a, refs) == Chunks(p, b, refs);
  }

  /** Requests that change only pointers keep the snapshots. */
  lemma SnapsFaithful(p: Params, a: Bucket, b: Bucket, m: Meaning, chunks: Image)
    requires Faithful(p, a, m) && b == a.(pointers := b.pointers) && Shows(p, b, Live(p, b), chunks)
    ensures Faithful(p, b, m.(chunks := chunks))
  {
    forall id | id in b.bins ensures SnapShows(p, b, m.(chunks := chunks), id) {
      assert SnapShows(p, a, m, id);
      SamePool(p, a, b, SnapRefs(p, a, id), m.snaps[id]);
    }
  }

  lemma GoodPutPointer(p: Params, b: Bucket, put: set<Bytes>, m: Meaning, i: Index, h: Hash, d: Bytes)
    requires Invert(p.fmt) && Good(p, b, put, m) && Has(p, b, h)
    requires NoCollision(p, put) ==> p.decode(b.objects[p.fmt.name(h)]) == Ok(d)
    ensures MaySend(p, b, put, PutPointer(i, h), m.(chunks := m.chunks[i := d]))
  {
    var c := SetPointer(p, b, i, h);
    assert Named(p, b, p.fmt.name(h));
    SetPointerSafe(p, b, i, h);
    if NoCollision(p, put) {
      SetPointerLive(p, b, i, h);
      LiveResolves(p, c);
      PointerChunks(p, b, c, Live(p, b), i, h);
      SnapsFaithful(p, b, c, m, m.chunks[i := d]);
    }
  }

  lemma PointerChunks(p: Params, b: Bucket, c: Bucket, refs: Refs, i: Index, h: Hash)
    requires b.objects == c.objects && Resolves(p, b, refs) && Resolves(p, c, refs[i := h]) && Has(p, b, h) && Named(p, b, p.fmt.name(h))
    ensures Chunks(p, c, refs[i := h]) == Chunks(p, b, refs)[i := DataOf(p, b, h)]
  {
  }

  lemma FewerChunks(p: Params, b: Bucket, c: Bucket, refs: Refs, i: Index)
    requires b.objects == c.objects && Resolves(p, b, refs) && Resolves(p, c, refs - {i})
    ensures Chunks(p, c, refs - {i}) == Chunks(p, b, refs) - {i}
  {
    var x, y := Chunks(p, c, refs - {i}), Chunks(p, b, refs) - {i};
    assert x.Keys == y.Keys;
  }

  lemma GoodDeletePointer(p: Params, b: Bucket, put: set<Bytes>, m: Meaning, i: Index)
    requires Good(p, b, put, m)
    ensures MaySend(p, b, put, DeletePointer(i), m.(chunks := m.chunks - {i}))
  {
    var c := DropPointer(b, i);
    DropPointerSafe(p, b, i);
    if NoCollision(p, put) {
      DropPointerLive(p, b, i);
      LiveResolves(p, c);
      FewerChunks(p, b, c, Live(p, b), i);
      SnapsFaithful(p, b, c, m, m.chunks - {i});
    }
  }

  /** Requests that change only manifests and bins keep the volume and the bins that stay. */
  lemma VolumeFaithful(p: Params, a: Bucket, b: Bucket, m: Meaning, n: Meaning)
    requires Faithful(p, a, m) && b.pointers == a.pointers && b.objects == a.objects && n.chunks == m.chunks
    requires forall id :: id in b.bins ==>
      if id in a.bins && b.bins[id] == a.bins[id] && id in n.snaps && n.snaps[id] == m.snaps[id] then true else SnapShows(p, b, n, id)
    ensures Faithful(p, b, n)
  {
    assert Live(p, a) == Live(p, b);
    SamePool(p, a, b, Live(p, a), m.chunks);
    forall id | id in b.bins ensures SnapShows(p, b, n, id) {
      if id in a.bins && b.bins[id] == a.bins[id] && id in n.snaps && n.snaps[id] == m.snaps[id] {
        assert SnapShows(p, a, m, id);
        SamePool(p, a, b, SnapRefs(p, a, id), m.snaps[id]);
      }
    }
  }

  lemma GoodPutManifest(p: Params, b: Bucket, put: set<Bytes>, m: Meaning, manifest: Manifest)
    requires Good(p, b, put, m)
    ensures MaySend(p, b, put, PutManifest(manifest), m)
  {
    SetManifestSafe(p, b, manifest);
    if NoCollision(p, put) {
      VolumeFaithful(p, b, SetManifest(b, manifest), m, m);
    }
  }

  lemma GoodPutBin(p: Params, b: Bucket, put: set<Bytes>, m: Meaning, id: string, bin: Bytes, img: Image)
    requires Good(p, b, put, m) && id in b.manifests && BinOk(p, b, bin) && Distinct(Records(p, bin))
    requires NoCollision(p, put) ==> Shows(p, b, Table(Records(p, bin)), img)
    ensures MaySend(p, b, put, PutBin(id, bin), m.(snaps := m.snaps[id := img]))
  {
    var c, n := SetBin(b, id, bin), m.(snaps := m.snaps[id := img]);
    SetBinSafe(p, b, id, bin);
    if NoCollision(p, put) {
      SamePool(p, b, c, Table(Records(p, bin)), img);
      assert SnapShows(p, c, n, id);
      VolumeFaithful(p, b, c, m, n);
    }
  }

  lemma GoodDeleteBin(p: Params, b: Bucket, put: set<Bytes>, m: Meaning, id: string)
    requires Good(p, b, put, m)
    ensures MaySend(p, b, put, DeleteBin(id), m.(snaps := m.snaps - {id}))
  {
    DropBinSafe(p, b, id);
    if NoCollision(p, put) {
      VolumeFaithful(p, b, DropBin(b, id), m, m.(snaps := m.snaps - {id}));
    }
  }

  lemma GoodDeleteManifest(p: Params, b: Bucket, put: set<Bytes>, m: Meaning, id: string)
    requires Good(p, b, put, m) && id !in b.bins
    ensures MaySend(p, b, put, DeleteManifest(id), m)
  {
    DropManifestIff(p, b, id);
    if NoCollision(p, put) {
      VolumeFaithful(p, b, DropManifest(b, id), m, m);
    }
  }

  lemma GoodPutMeta(p: Params, b: Bucket, put: set<Bytes>, m: Meaning, capacity: nat)
    requires Good(p, b, put, m)
    ensures MaySend(p, b, put, PutMeta(capacity), m)
  {
    var c := b.(meta := capacity);
    SameObjects(p, b, c);
    forall id | id in c.bins ensures SnapshotOk(p, c, id) {
      assert SnapshotOk(p, b, id);
    }
    if NoCollision(p, put) {
      VolumeFaithful(p, b, c, m, m);
    }
  }
}
