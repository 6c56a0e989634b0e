/** Any number of interrupted attempts: what every one leaves, and what the volume is at the end. */
module MigrationRuns {
  import opened Volume
  import opened SnapshotFormat
  import opened CowBucket
  import CowStore
  import opened Migration

  /** A legacy volume that no migration has touched. */
  ghost predicate Untouched(o: Keys) {
    && o.flatMeta.Some? && o.flatMeta.value.storage == Legacy && o.liveMeta.None?
    && !o.marker && o.pointers == map[] && o.objects == map[]
  }

  ghost function Bodies(o: Keys): set<Bytes> {
    o.sharded.Values + o.flat.Values
  }

  /** Where a chunk has keys of both forms, they hold the same body. */
  ghost predicate Agree(o: Keys) {
    forall i :: i in o.sharded && i in o.flat ==> o.sharded[i] == o.flat[i]
  }

  /**
   Attempt after attempt, by command or by opening. An attempt may come after one whose
   commit landed although an error was reported: the daemon still serves the volume as
   legacy and takes the command again.
   */
  datatype Try = Try(idxs: seq<Index>, meta: Meta, w: Weather)

  ghost function Next(p: Params, v: Keys, t: Try): Keys {
    if Lists(t.idxs, v) then Attempt(p, v, t.idxs, t.meta, t.w).0 else v
  }

  ghost function After(p: Params, v: Keys, ts: seq<Try>): Keys {
    if |ts| == 0 then v else Next(p, After(p, v, ts[..|ts| - 1]), ts[|ts| - 1])
  }

  // ------------------------------------------------------------ invariant

  /** The chunk has its object and its pointer. */
  ghost predicate Moved(p: Params, v: Keys, i: Index, body: Bytes) {
    var n := p.fmt.name(p.hash(body));
    i in v.pointers && v.pointers[i] == p.fmt.pointer(p.hash(body)) && n in v.objects && v.objects[n] == body
  }

  ghost predicate Pooled(p: Params, o: Keys, v: Keys) {
    forall n :: n in v.objects ==> n == p.fmt.name(p.hash(v.objects[n])) && v.objects[n] in Bodies(o)
  }

  /** What is left of the legacy keys is as it was. */
  ghost predicate Remains(o: Keys, v: Keys) {
    && (forall i :: i in v.sharded ==> i in o.sharded && v.sharded[i] == o.sharded[i])
    && (forall i :: i in v.flat ==> i in o.flat && v.flat[i] == o.flat[i])
  }

  /** A chunk of the original is still there under a legacy key, or it has moved. */
  ghost predicate Somewhere(p: Params, o: Keys, v: Keys, i: Index) {
    Body(o, i).Some? ==> Body(v, i).Some? || Moved(p, v, i, Body(o, i).value)
  }

  /** A pointer is one to the original's body. */
  ghost predicate Right(p: Params, o: Keys, v: Keys, i: Index) {
    i in v.pointers ==> Body(o, i).Some? && Moved(p, v, i, Body(o, i).value)
  }

  ghost predicate Held(p: Params, o: Keys, v: Keys) {
    match p
    case Params(_, _, _, _, _, _, _) =>
      && Remains(o, v) && Pooled(p, o, v)
      && (forall i :: Somewhere(p, o, v, i)) && (forall i :: Right(p, o, v, i))
  }

  /** Every chunk has moved. */
  ghost predicate Complete(p: Params, o: Keys, v: Keys) {
    forall i :: (i in v.pointers <==> Body(o, i).Some?) && Right(p, o, v, i)
  }

  ghost predicate Inv(p: Params, o: Keys, v: Keys) {
    match v.liveMeta
    case None => Held(p, o, v) && v.flatMeta == o.flatMeta && (!v.marker ==> v == o)
    case Some(m) => Held(p, o, v) && m.storage == Cow && Complete(p, o, v)
  }

  /** A volume in the new layout is read as the copy-on-write store reads its bucket. */
  lemma ReadsAsCow(p: Params, v: Keys, b: Bucket, i: Index)
    requires b.pointers == v.pointers && b.objects == v.objects
    ensures ReadCow(p, v, i) == CowStore.ReadChunk(p, b, i)
  {
  }

  lemma InBodies(o: Keys, i: Index)
    requires Body(o, i).Some?
    ensures Body(o, i).value in Bodies(o)
  {
  }

  lemma BodyKept(o: Keys, v: Keys, i: Index)
    requires Agree(o) && Remains(o, v) && Body(v, i).Some?
    ensures Body(o, i) == Body(v, i)
  {
  }

  /** A new object moves nothing that has moved, since it cannot replace a different body. */
  lemma ObjectHeld(p: Params, o: Keys, v: Keys, body: Bytes)
    requires Invert(p.fmt) && NoCollision(p, Bodies(o)) && Held(p, o, v) && body in Bodies(o)
    ensures Held(p, o, PutObject(p, v, body))
  {
    var u := PutObject(p, v, body);
    forall j ensures Somewhere(p, o, u, j) && Right(p, o, u, j) {
      assert Somewhere(p, o, v, j) && Right(p, o, v, j);
      if Body(o, j).Some? && Moved(p, v, j, Body(o, j).value) {
        StillMoved(p, o, v, body, j, Body(o, j).value);
      }
    }
  }

  lemma StillMoved(p: Params, o: Keys, v: Keys, body: Bytes, j: Index, b: Bytes)
    requires Invert(p.fmt) && NoCollision(p, Bodies(o)) && Pooled(p, o, v) && body in Bodies(o) && Moved(p, v, j, b)
    ensures Moved(p, PutObject(p, v, body), j, b)
  {
    var n := p.fmt.name(p.hash(b));
    assert v.objects[n] in Bodies(o);
    if n == p.fmt.name(p.hash(body)) {
      assert p.fmt.parse(n) == Some(p.hash(b)) == Some(p.hash(body));
    }
  }

  lemma PointerHeld(p: Params, o: Keys, v: Keys, i: Index, body: Bytes)
    requires Held(p, o, v) && Body(o, i) == Some(body)
    requires p.fmt.name(p.hash(body)) in v.objects && v.objects[p.fmt.name(p.hash(body))] == body
    ensures Held(p, o, PutPointer(p, v, i, body)) && Moved(p, PutPointer(p, v, i, body), i, body)
  {
    var u := PutPointer(p, v, i, body);
    forall j ensures Somewhere(p, o, u, j) && Right(p, o, u, j) {
      assert Somewhere(p, o, v, j) && Right(p, o, v, j);
    }
  }

  lemma DropHeld(p: Params, o: Keys, v: Keys, i: Index, sharded: bool, flat: bool)
    requires Held(p, o, v) && i in v.pointers
    ensures Held(p, o, DropLegacy(v, i, sharded, flat))
  {
    var u := DropLegacy(v, i, sharded, flat);
    forall j ensures Somewhere(p, o, u, j) && Right(p, o, u, j) {
      assert Somewhere(p, o, v, j) && Right(p, o, v, j);
    }
  }

  /** Where one chunk's turn may end. */
  lemma OneEnds(p: Params, v: Keys, i: Index, f: ChunkFate, body: Bytes)
    requires Body(v, i) == Some(body)
    ensures var u := MigrateOne(p, v, i, f).0;
            var v1 := PutObject(p, v, body);
            var v2 := PutPointer(p, v1, i, body);
            var v3 := DropLegacy(v2, i, f.sharded, f.flat);
            (u == v || u == v1 || u == v2 || u == v3) && (MigrateOne(p, v, i, f).1 ==> u == v3)
  {
  }

  lemma OneHeld(p: Params, o: Keys, v: Keys, i: Index, f: ChunkFate)
    requires Invert(p.fmt) && NoCollision(p, Bodies(o)) && Agree(o) && Held(p, o, v)
    ensures Held(p, o, MigrateOne(p, v, i, f).0)
  {
    if Body(v, i).Some? {
      var body := Body(v, i).value;
      BodyKept(o, v, i);
      InBodies(o, i);
      var v1 := PutObject(p, v, body);
      ObjectHeld(p, o, v, body);
      var v2 := PutPointer(p, v1, i, body);
      PointerHeld(p, o, v1, i, body);
      DropHeld(p, o, v2, i, f.sharded, f.flat);
      OneEnds(p, v, i, f, body);
    }
  }

  lemma OneGains(p: Params, v: Keys, i: Index, f: ChunkFate)
    ensures var (u, ok) := MigrateOne(p, v, i, f);
            && v.pointers.Keys <= u.pointers.Keys && SameMeta(v, u)
            && (ok && Body(v, i).Some? ==> i in u.pointers)
  {
  }

  ghost predicate SameMeta(v: Keys, u: Keys) {
    u.flatMeta == v.flatMeta && u.liveMeta == v.liveMeta && u.marker == v.marker
  }

  /** What the first `n` turns of the loop leave. */
  ghost predicate HeldUpto(p: Params, o: Keys, v: Keys, idxs: seq<Index>, n: nat, r: (Keys, bool))
    requires n <= |idxs|
  {
    match r
    case (u, ok) =>
      && Held(p, o, u) && v.pointers.Keys <= u.pointers.Keys && SameMeta(v, u)
      && (ok ==> forall k :: 0 <= k < n && Body(o, idxs[k]).Some? ==> idxs[k] in u.pointers)
  }

  lemma {:induction false} UptoHeld(p: Params, o: Keys, v: Keys, idxs: seq<Index>, n: nat, w: Weather)
    requires Invert(p.fmt) && NoCollision(p, Bodies(o)) && Agree(o) && Held(p, o, v) && n <= |idxs|
    ensures HeldUpto(p, o, v, idxs, n, MigrateUpto(p, v, idxs, n, w))
  {
    if n > 0 {
      UptoHeld(p, o, v, idxs, n - 1, w);
      var r := MigrateUpto(p, v, idxs, n - 1, w);
      if r.1 {
        MoreHeld(p, o, v, r, idxs, n - 1, w.chunk(idxs[n - 1]));
      } else {
        StoppedHeld(p, o, v, r, idxs, n - 1);
      }
    }
  }

  lemma StoppedHeld(p: Params, o: Keys, v: Keys, r: (Keys, bool), idxs: seq<Index>, n: nat)
    requires n < |idxs| && HeldUpto(p, o, v, idxs, n, r) && !r.1
    ensures HeldUpto(p, o, v, idxs, n + 1, r)
  {
  }

  lemma MoreHeld(p: Params, o: Keys, v: Keys, r: (Keys, bool), idxs: seq<Index>, n: nat, f: ChunkFate)
    requires Invert(p.fmt) && NoCollision(p, Bodies(o)) && Agree(o) && n < |idxs| && HeldUpto(p, o, v, idxs, n, r) && r.1
    ensures HeldUpto(p, o, v, idxs, n + 1, MigrateOne(p, r.0, idxs[n], f))
  {
    OneHeld(p, o, r.0, idxs[n], f);
    OneGains(p, r.0, idxs[n], f);
    assert Somewhere(p, o, r.0, idxs[n]);
  }

  lemma AttemptInv(p: Params, o: Keys, v: Keys, t: Try)
    requires Invert(p.fmt) && NoCollision(p, Bodies(o)) && Agree(o) && Inv(p, o, v)
    ensures Inv(p, o, Next(p, v, t))
  {
    if Lists(t.idxs, v) && t.w.marker != Lost {
      var v1 := v.(marker := true);
      MarkerInv(p, o, v);
      if t.w.marker == Fine {
        UptoHeld(p, o, v1, t.idxs, |t.idxs|, t.w);
        var (u, ok) := MigrateUpto(p, v1, t.idxs, |t.idxs|, t.w);
        MoreInv(p, o, v1, u);
        if ok {
          AllMoved(p, o, v, u, t.idxs);
          CommitInv(p, o, u, t.meta, t.w);
        }
      }
    }
  }

  /** Keys with the same chunks, in whatever state their metadata is. */
  ghost predicate SameChunks(v: Keys, u: Keys) {
    u.sharded == v.sharded && u.flat == v.flat && u.objects == v.objects && u.pointers == v.pointers
  }

  lemma SameHeld(p: Params, o: Keys, v: Keys, u: Keys)
    requires Held(p, o, v) && SameChunks(v, u)
    ensures Held(p, o, u) && (Complete(p, o, v) ==> Complete(p, o, u))
  {
    forall j ensures Somewhere(p, o, u, j) && Right(p, o, u, j) {
      assert Somewhere(p, o, v, j) && Right(p, o, v, j);
    }
  }

  lemma MarkerInv(p: Params, o: Keys, v: Keys)
    requires Inv(p, o, v)
    ensures Inv(p, o, v.(marker := true))
  {
    SameHeld(p, o, v, v.(marker := true));
  }

  /** More pointers, all of them right: what was complete still is. */
  lemma MoreInv(p: Params, o: Keys, v: Keys, u: Keys)
    requires Inv(p, o, v) && v.marker && Held(p, o, u) && v.pointers.Keys <= u.pointers.Keys && SameMeta(v, u)
    ensures Inv(p, o, u)
  {
    if v.liveMeta.Some? {
      forall i ensures (i in u.pointers <==> Body(o, i).Some?) && Right(p, o, u, i) {
        assert Right(p, o, u, i);
        assert i in v.pointers <==> Body(o, i).Some?;
      }
    }
  }

  lemma AllMoved(p: Params, o: Keys, v: Keys, u: Keys, idxs: seq<Index>)
    requires Held(p, o, v) && Held(p, o, u) && v.pointers.Keys <= u.pointers.Keys && Lists(idxs, v)
    requires forall k :: 0 <= k < |idxs| && Body(o, idxs[k]).Some? ==> idxs[k] in u.pointers
    ensures Complete(p, o, u)
  {
    forall i ensures (i in u.pointers <==> Body(o, i).Some?) && Right(p, o, u, i) {
      assert Right(p, o, u, i) && Somewhere(p, o, v, i);
      if Body(v, i).Some? {
        assert i in idxs;
      }
    }
  }

  lemma CommitInv(p: Params, o: Keys, u: Keys, meta: Meta, w: Weather)
    requires Inv(p, o, u) && Held(p, o, u) && Complete(p, o, u)
    ensures Inv(p, o, Commit(u, meta, w).0)
  {
    if w.commit != Lost {
      var c := Commit(u, meta, w).0;
      assert c.liveMeta == Some(meta.(storage := Cow));
      SameHeld(p, o, u, c);
    }
  }

  lemma {:induction false} RunInv(p: Params, o: Keys, ts: seq<Try>)
    requires Invert(p.fmt) && NoCollision(p, Bodies(o)) && Agree(o) && Untouched(o)
    ensures Inv(p, o, After(p, o, ts))
  {
    if |ts| > 0 {
      RunInv(p, o, ts[..|ts| - 1]);
      AttemptInv(p, o, After(p, o, ts[..|ts| - 1]), ts[|ts| - 1]);
    }
  }

  // ------------------------------------------------------------ the result

  /** What opening serves reads, chunk for chunk, as the original legacy volume did. */
  ghost predicate ServesTheOriginal(p: Params, o: Keys, v: Keys, config: Meta) {
    match Open(v, config)
    case Refused(_) => true
    case Resumes => v.liveMeta.None?
    case Serves(Legacy) => forall i :: ReadLegacy(p, v, i) == ReadLegacy(p, o, i)
    case Serves(Cow) => forall i :: ReadCow(p, v, i) == ReadLegacy(p, o, i)
  }

  lemma CompleteReads(p: Params, o: Keys, v: Keys, i: Index)
    requires Invert(p.fmt) && Complete(p, o, v)
    ensures ReadCow(p, v, i) == ReadLegacy(p, o, i)
  {
    assert Right(p, o, v, i);
  }

  /** After any attempts, each stopped anywhere, opening resumes, refuses, or serves the original. */
  lemma RunServes(p: Params, o: Keys, ts: seq<Try>, config: Meta)
    requires Invert(p.fmt) && NoCollision(p, Bodies(o)) && Agree(o) && Untouched(o)
    ensures ServesTheOriginal(p, o, After(p, o, ts), config)
  {
    var v := After(p, o, ts);
    RunInv(p, o, ts);
    if v.liveMeta.Some? {
      forall i ensures ReadCow(p, v, i) == ReadLegacy(p, o, i) {
        CompleteReads(p, o, v, i);
      }
    }
  }

  /** Every put goes well; sharded keys are deleted, flat ones only if `flat`; then `commit`. */
  function Smooth(flat: bool, commit: Fate): Weather {
    Weather(Fine, _ => ChunkFate(Fine, Fine, true, flat), commit, true, true)
  }

  lemma {:induction false} SmoothOk(p: Params, v: Keys, idxs: seq<Index>, n: nat)
    requires n <= |idxs|
    ensures MigrateUpto(p, v, idxs, n, Smooth(true, Fine)).1
  {
    if n > 0 {
      SmoothOk(p, v, idxs, n - 1);
    }
  }

  /** One attempt without failures, after any that failed, ends with the original volume in the new layout. */
  lemma MigrationFinishes(p: Params, o: Keys, ts: seq<Try>, idxs: seq<Index>, meta: Meta, i: Index)
    requires Invert(p.fmt) && NoCollision(p, Bodies(o)) && Agree(o) && Untouched(o) && Lists(idxs, After(p, o, ts))
    ensures var v := After(p, o, ts + [Try(idxs, meta, Smooth(true, Fine))]);
            v.liveMeta.Some? && ReadCow(p, v, i) == ReadLegacy(p, o, i)
  {
    var t := Try(idxs, meta, Smooth(true, Fine));
    var v := After(p, o, ts + [t]);
    assert (ts + [t])[..|ts|] == ts;
    SmoothOk(p, After(p, o, ts).(marker := true), idxs, |idxs|);
    RunInv(p, o, ts + [t]);
    CompleteReads(p, o, v, i);
  }

  // ------------------------------------------------------------- opening

  /** A bucket without metadata and without a migration under way opens in the configured layout. */
  lemma OpensNew(v: Keys, config: Meta)
    requires v.liveMeta.None? && v.flatMeta.None? && !v.marker
    ensures Open(v, config) == Serves(config.storage)
  {
  }

  /** With `stored` in the bucket: a configuration of another layout or geometry is refused, so is a smaller capacity. */
  ghost predicate Opens(v: Keys, config: Meta, stored: Meta, result: Opened) {
    Open(v, config) ==
      if config != stored.(capacity := config.capacity) then Refused(GeometryMismatch)
      else if config.capacity < stored.capacity then Refused(ShrinkRefused(stored.capacity, config.capacity))
      else result
  }

  /**
   After any attempts: until one has committed, the volume opens only as the legacy volume it
   is, and resumes iff an attempt has begun; from then on only as copy-on-write.
   */
  lemma RunOpens(p: Params, o: Keys, ts: seq<Try>, config: Meta)
    requires Invert(p.fmt) && NoCollision(p, Bodies(o)) && Agree(o) && Untouched(o)
    ensures var v := After(p, o, ts);
            match v.liveMeta
            case None => Opens(v, config, o.flatMeta.value, if v.marker then Resumes else Serves(Legacy))
            case Some(stored) => stored.storage == Cow && Opens(v, config, stored, Serves(Cow))
  {
    RunInv(p, o, ts);
  }

  /** An untouched legacy volume is served as it is configured to be. */
  lemma OpensUntouched(o: Keys)
    requires Untouched(o)
    ensures Open(o, o.flatMeta.value) == Serves(Legacy)
    ensures Open(o, o.flatMeta.value.(storage := Cow)) == Refused(GeometryMismatch)
  {
  }

  /** Once an attempt without failures has ended, the volume opens as copy-on-write and as nothing else. */
  lemma OpensMigrated(p: Params, o: Keys, ts: seq<Try>, idxs: seq<Index>, meta: Meta)
    requires Lists(idxs, After(p, o, ts))
    ensures var v := After(p, o, ts + [Try(idxs, meta, Smooth(true, Fine))]);
            && v.flatMeta.None? && !v.marker
            && Open(v, meta.(storage := Cow)) == Serves(Cow)
            && Open(v, meta.(storage := Legacy)) == Refused(GeometryMismatch)
  {
    var t := Try(idxs, meta, Smooth(true, Fine));
    assert (ts + [t])[..|ts|] == ts;
    SmoothOk(p, After(p, o, ts).(marker := true), idxs, |idxs|);
  }

  // ------------------------------------ two keys with different bodies

  /** The stored body a copy-on-write read gets to. */
  function CowBody(p: Params, v: Keys, i: Index): Option<Bytes> {
    if i !in v.pointers then None else
    var h := p.fmt.target(v.pointers[i]);
    if h.Ok? && p.fmt.name(h.value) in v.objects then Some(v.objects[p.fmt.name(h.value)]) else None
  }

  /** Once committed, every chunk is stored as the original had it. */
  ghost predicate Intact(p: Params, o: Keys, v: Keys) {
    v.liveMeta.Some? ==> forall i :: CowBody(p, v, i) == Body(o, i)
  }

  lemma {:induction false} Enumerate(s: set<Index>) returns (q: seq<Index>)
    ensures forall i :: i in q <==> i in s
  {
    if s == {} {
      q := [];
    } else {
      var i :| i in s;
      var rest := Enumerate(s - {i});
      q := rest + [i];
      forall j ensures j in q <==> j in s {
        assert j in s <==> j == i || j in s - {i};
      }
    }
  }

  lemma ListingOf(v: Keys) returns (idxs: seq<Index>)
    ensures Lists(idxs, v)
  {
    idxs := Enumerate(v.sharded.Keys + v.flat.Keys);
  }

  /** An attempt whose flat deletes fail leaves the flat keys and takes the sharded ones. */
  lemma {:induction false} LeavesFlat(p: Params, v: Keys, idxs: seq<Index>, n: nat, commit: Fate)
    requires n <= |idxs|
    ensures var (u, ok) := MigrateUpto(p, v, idxs, n, Smooth(false, commit));
            && ok && u.flat == v.flat && SameMeta(v, u) && u.sharded.Keys <= v.sharded.Keys
            && forall k :: 0 <= k < n ==> idxs[k] !in u.sharded
  {
    if n > 0 {
      LeavesFlat(p, v, idxs, n - 1, commit);
    }
  }

  lemma {:induction false} PoolsOriginals(p: Params, o: Keys, v: Keys, idxs: seq<Index>, n: nat, w: Weather)
    requires n <= |idxs| && Remains(o, v) && Pooled(p, o, v)
    ensures var (u, ok) := MigrateUpto(p, v, idxs, n, w); Remains(o, u) && Pooled(p, o, u)
  {
    if n > 0 {
      PoolsOriginals(p, o, v, idxs, n - 1, w);
      var (u, ok) := MigrateUpto(p, v, idxs, n - 1, w);
      PoolsOne(p, o, u, idxs[n - 1], w.chunk(idxs[n - 1]));
    }
  }

  lemma PoolsObject(p: Params, o: Keys, v: Keys, body: Bytes)
    requires Remains(o, v) && Pooled(p, o, v) && body in Bodies(o)
    ensures Remains(o, PutObject(p, v, body)) && Pooled(p, o, PutObject(p, v, body))
  {
  }

  lemma PoolsOne(p: Params, o: Keys, v: Keys, i: Index, f: ChunkFate)
    requires Remains(o, v) && Pooled(p, o, v)
    ensures Remains(o, MigrateOne(p, v, i, f).0) && Pooled(p, o, MigrateOne(p, v, i, f).0)
  {
    if Body(v, i).Some? {
      var body := Body(v, i).value;
      assert body in Bodies(o);
      PoolsObject(p, o, v, body);
      OneEnds(p, v, i, f, body);
    }
  }

  /** After `n` turns without failures, a chunk has moved as it was found or is still to come. */
  ghost predicate MovedUpto(p: Params, v: Keys, idxs: seq<Index>, n: nat, i: Index, r: (Keys, bool))
    requires n <= |idxs| && Body(v, i).Some?
  {
    match r
    case (u, ok) =>
      && ok && SameMeta(v, u)
      && (if i in idxs[..n] then Body(u, i).None? && Moved(p, u, i, Body(v, i).value) else Body(u, i) == Body(v, i))
  }

  /** An attempt without failures moves every listed chunk as it finds it. */
  lemma {:induction false} MovesAsFound(p: Params, o: Keys, v: Keys, idxs: seq<Index>, n: nat, i: Index)
    requires Invert(p.fmt) && NoCollision(p, Bodies(o)) && Remains(o, v) && Pooled(p, o, v) && n <= |idxs| && Body(v, i).Some?
    ensures MovedUpto(p, v, idxs, n, i, MigrateUpto(p, v, idxs, n, Smooth(true, Fine)))
  {
    if n > 0 {
      MovesAsFound(p, o, v, idxs, n - 1, i);
      PoolsOriginals(p, o, v, idxs, n - 1, Smooth(true, Fine));
      var (u, ok) := MigrateUpto(p, v, idxs, n - 1, Smooth(true, Fine));
      assert idxs[..n] == idxs[..n - 1] + [idxs[n - 1]];
      MovesOne(p, o, u, idxs[n - 1], i, Body(v, i).value);
    }
  }

  lemma MovesOne(p: Params, o: Keys, u: Keys, j: Index, i: Index, body: Bytes)
    requires Invert(p.fmt) && NoCollision(p, Bodies(o)) && Remains(o, u) && Pooled(p, o, u)
    requires Body(u, i) == Some(body) || (Body(u, i).None? && Moved(p, u, i, body))
    ensures var (t, ok) := MigrateOne(p, u, j, ChunkFate(Fine, Fine, true, true));
            && ok && SameMeta(u, t)
            && (if j == i || Body(u, i).None? then Body(t, i).None? && Moved(p, t, i, body) else Body(t, i) == Some(body))
  {
    if Body(u, j).Some? {
      var b := Body(u, j).value;
      assert b in Bodies(o);
      if Body(u, i).None? {
        StillMoved(p, o, u, b, i, body);
      }
    }
  }

  /** Two attempts: the first loses its flat deletes and its commit, the second meets the stale flat key. */
  lemma StaleRun(p: Params, o: Keys, i: Index) returns (ts: seq<Try>)
    requires Invert(p.fmt) && NoCollision(p, Bodies(o)) && Untouched(o) && i in o.sharded && i in o.flat
    ensures After(p, o, ts).liveMeta.Some? && CowBody(p, After(p, o, ts), i) == Some(o.flat[i])
  {
    var meta := o.flatMeta.value;
    var idxs1 := ListingOf(o);
    var t1 := Try(idxs1, meta, Smooth(false, Lost));
    var a := FirstAttempt(p, o, idxs1, meta);
    var idxs2 := ListingOf(a);
    var t2 := Try(idxs2, meta, Smooth(true, Fine));
    ts := [t1, t2];
    assert ts[..1] == [t1] && ts[..1][..0] == [];
    assert After(p, o, ts[..1]) == Next(p, o, t1);
    SecondAttempt(p, o, a, idxs2, meta, i);
  }

  lemma FirstAttempt(p: Params, o: Keys, idxs: seq<Index>, meta: Meta) returns (a: Keys)
    requires Untouched(o) && Lists(idxs, o)
    ensures a == Next(p, o, Try(idxs, meta, Smooth(false, Lost)))
    ensures a.liveMeta.None? && a.flat == o.flat && a.sharded == map[] && Remains(o, a) && Pooled(p, o, a)
  {
    var o1 := o.(marker := true);
    LeavesFlat(p, o1, idxs, |idxs|, Lost);
    PoolsOriginals(p, o, o1, idxs, |idxs|, Smooth(false, Lost));
    a := Next(p, o, Try(idxs, meta, Smooth(false, Lost)));
    forall j | j in o.sharded ensures j !in a.sharded {
      assert Body(o, j).Some?;
      assert j in idxs;
    }
  }

  lemma SecondAttempt(p: Params, o: Keys, a: Keys, idxs: seq<Index>, meta: Meta, i: Index)
    requires Invert(p.fmt) && NoCollision(p, Bodies(o)) && Remains(o, a) && Pooled(p, o, a) && Lists(idxs, a)
    requires a.liveMeta.None? && a.sharded == map[] && i in a.flat
    ensures var v := Next(p, a, Try(idxs, meta, Smooth(true, Fine)));
            v.liveMeta.Some? && CowBody(p, v, i) == Some(a.flat[i])
  {
    var a1 := a.(marker := true);
    MovesAsFound(p, o, a1, idxs, |idxs|, i);
    assert Body(a, i).Some?;
    assert idxs[..|idxs|] == idxs;
  }

  /** Every schedule of interruptions ends with the original iff no chunk has two keys that differ. */
  lemma IntactIff(p: Params, o: Keys)
    requires Invert(p.fmt) && NoCollision(p, Bodies(o)) && Untouched(o)
    ensures (forall ts :: Intact(p, o, After(p, o, ts))) <==> Agree(o)
  {
    if Agree(o) {
      forall ts ensures Intact(p, o, After(p, o, ts)) {
        RunInv(p, o, ts);
        CompleteIntact(p, o, After(p, o, ts));
      }
    } else {
      var i :| i in o.sharded && i in o.flat && o.sharded[i] != o.flat[i];
      var ts := StaleRun(p, o, i);
      assert !Intact(p, o, After(p, o, ts));
    }
  }

  lemma CompleteIntact(p: Params, o: Keys, v: Keys)
    requires Invert(p.fmt) && Inv(p, o, v)
    ensures Intact(p, o, v)
  {
    if v.liveMeta.Some? {
      forall i ensures CowBody(p, v, i) == Body(o, i) {
        assert Right(p, o, v, i);
      }
    }
  }
}
