/** Moving a legacy volume to the copy-on-write layout, over attempts that may each stop anywhere. */
module Migration {
  import opened Volume
  import opened SnapshotFormat
  import opened CowBucket
  import MemoryStore

  datatype Mode = Legacy | Cow

  datatype Meta = Meta(capacity: nat, chunkSize: nat, blockSize: nat, algorithm: nat, storage: Mode)

  /** The keys of one volume: both forms of legacy chunks, and the copy-on-write layout beside them. */
  datatype Keys = Keys(
    sharded: map<Index, Bytes>,
    flat: map<Index, Bytes>,
    objects: map<string, Bytes>,
    pointers: map<Index, Bytes>,
    flatMeta: Option<Meta>,
    liveMeta: Option<Meta>,
    marker: bool)

  // ------------------------------------------------------------- reading

  /** The stored body of a legacy chunk; the sharded key wins. */
  function Body(v: Keys, i: Index): Option<Bytes> {
    if i in v.sharded then Some(v.sharded[i]) else if i in v.flat then Some(v.flat[i]) else None
  }

  function ReadLegacy(p: Params, v: Keys, i: Index): Outcome<Bytes> {
    if Body(v, i).Some? then p.decode(Body(v, i).value) else Ok(Zeros(p.cs))
  }

  function ReadCow(p: Params, v: Keys, i: Index): Outcome<Bytes> {
    if i !in v.pointers then Ok(Zeros(p.cs)) else
    var h := p.fmt.target(v.pointers[i]);
    if h.Err? then Err(h.error)
    else if p.fmt.name(h.value) !in v.objects then Err(Other)
    else p.decode(v.objects[p.fmt.name(h.value)])
  }

  // ------------------------------------------------------------- opening

  /** What the bucket's metadata says the layout is, against what is configured. */
  function ProbeLayout(v: Keys, config: Mode): Outcome<(Mode, Option<Meta>)> {
    match (v.liveMeta, v.flatMeta)
    case (Some(m), _) =>
      if m.storage != Cow then Err(MetaError)
      else if config != Cow then Err(GeometryMismatch)
      else Ok((Cow, Some(m)))
    case (None, Some(m)) =>
      if m.storage == Cow then Err(MetaError)
      else if config == Cow then Err(GeometryMismatch)
      else Ok((Legacy, Some(m)))
    case (None, None) => Ok((config, None))
  }

  /** The effective capacity, and the metadata to write if it is new or has grown. */
  function PlanCapacity(existing: Option<Meta>, config: Meta): (r: Outcome<(nat, Option<Meta>)>)
    ensures r.Ok? && existing.Some? ==>
              r.value.0 >= existing.value.capacity && config == existing.value.(capacity := config.capacity)
    ensures r.Err? <==> existing.Some? && (config != existing.value.(capacity := config.capacity)
                                           || config.capacity < existing.value.capacity)
    ensures r.Err? ==> r.error == if config != existing.value.(capacity := config.capacity) then GeometryMismatch
                                  else ShrinkRefused(existing.value.capacity, config.capacity)
    ensures r.Ok? ==> r.value.0 == config.capacity
                      && (r.value.1.Some? <==> existing != Some(config)) && (r.value.1.Some? ==> r.value.1.value == config)
  {
    match existing
    case None => Ok((config.capacity, Some(config)))
    case Some(meta) =>
      if meta.chunkSize != config.chunkSize || meta.blockSize != config.blockSize
         || meta.algorithm != config.algorithm || meta.storage != config.storage then Err(GeometryMismatch)
      else if config.capacity < meta.capacity then Err(ShrinkRefused(meta.capacity, config.capacity))
      else if config.capacity > meta.capacity then Ok((config.capacity, Some(meta.(capacity := config.capacity))))
      else Ok((meta.capacity, None))
  }

  datatype Opened = Refused(error: StoreError) | Serves(mode: Mode) | Resumes

  /** What opening does: refuse, serve, or finish the migration first. */
  function Open(v: Keys, config: Meta): Opened {
    var probed := ProbeLayout(v, config.storage);
    if probed.Err? then Refused(probed.error) else
    var (mode, existing) := probed.value;
    var plan := PlanCapacity(existing, config.(storage := mode));
    if plan.Err? then Refused(plan.error)
    else if mode == Legacy && v.marker then Resumes
    else Serves(mode)
  }

  // ------------------------------------------------------- one attempt

  /** What becomes of a put: done, lost, or done although an error is reported. */
  datatype Fate = Fine | Lost | Landed

  /** The fates of the two puts for a chunk, and which of its two deletes take effect. */
  datatype ChunkFate = ChunkFate(payload: Fate, pointer: Fate, sharded: bool, flat: bool)

  /** All that the network does to one attempt. An attempt that dies is one whose next put is lost. */
  datatype Weather = Weather(marker: Fate, chunk: Index -> ChunkFate, commit: Fate, meta: bool, mark: bool)

  function PutObject(p: Params, v: Keys, body: Bytes): Keys {
    v.(objects := v.objects[p.fmt.name(p.hash(body)) := body])
  }

  function PutPointer(p: Params, v: Keys, i: Index, body: Bytes): Keys {
    v.(pointers := v.pointers[i := p.fmt.pointer(p.hash(body))])
  }

  function DropLegacy(v: Keys, i: Index, sharded: bool, flat: bool): Keys {
    v.(sharded := if sharded then v.sharded - {i} else v.sharded, flat := if flat then v.flat - {i} else v.flat)
  }

  /** Object, then pointer, then the legacy keys, whose deletion may fail unnoticed. */
  function MigrateOne(p: Params, v: Keys, i: Index, f: ChunkFate): (Keys, bool) {
    var body := Body(v, i);
    if body.None? then (v, true)
    else if f.payload == Lost then (v, false) else
    var v1 := PutObject(p, v, body.value);
    if f.payload == Landed then (v1, false)
    else if f.pointer == Lost then (v1, false) else
    var v2 := PutPointer(p, v1, i, body.value);
    if f.pointer == Landed then (v2, false) else (DropLegacy(v2, i, f.sharded, f.flat), true)
  }

  /** The first `n` listed chunks, as far as it goes. */
  function MigrateUpto(p: Params, v: Keys, idxs: seq<Index>, n: nat, w: Weather): (Keys, bool)
    requires n <= |idxs|
  {
    if n == 0 then (v, true) else
    var r := MigrateUpto(p, v, idxs, n - 1, w);
    if r.1 then MigrateOne(p, r.0, idxs[n - 1], w.chunk(idxs[n - 1])) else r
  }

  function Commit(v: Keys, meta: Meta, w: Weather): (Keys, bool) {
    if w.commit == Lost then (v, false) else
    var v1 := v.(liveMeta := Some(meta.(storage := Cow)));
    if w.commit == Landed then (v1, false)
    else (v1.(flatMeta := if w.meta then None else v1.flatMeta, marker := !w.mark && v1.marker), true)
  }

  function Attempt(p: Params, v: Keys, idxs: seq<Index>, meta: Meta, w: Weather): (Keys, bool) {
    if w.marker == Lost then (v, false) else
    var v1 := v.(marker := true);
    if w.marker == Landed then (v1, false) else
    var (v2, ok) := MigrateUpto(p, v1, idxs, |idxs|, w);
    if ok then Commit(v2, meta, w) else (v2, false)
  }

  ghost predicate Lists(idxs: seq<Index>, v: Keys) {
    forall i :: i in idxs <==> Body(v, i).Some?
  }

  /** A volume with its migration, as the daemon runs it. */
  class Migrator {
    const p: Params
    var v: Keys
    var mode: Mode
    var capacity: nat

    constructor (p: Params, v: Keys, mode: Mode, capacity: nat)
      ensures this.p == p && this.v == v && this.mode == mode && this.capacity == capacity
    {
      this.p, this.v, this.mode, this.capacity := p, v, mode, capacity;
    }

    /** The loop of `migrate_to_cow`; returns the listing it went by. */
    method MigrateToCow(w: Weather) returns (r: Outcome<nat>, ghost idxs: seq<Index>)
      modifies this
      ensures old(mode) == Cow ==> r.Err? && v == old(v).(marker := !w.mark && old(v).marker) && mode == Cow
      ensures old(mode) == Legacy ==>
                && Lists(idxs, old(v)) && MemoryStore.Ascending(idxs)
                && (v, r.Ok?) == Attempt(p, old(v), idxs, Meta(capacity, p.cs, p.bs, p.algorithm, Cow), w)
                && mode == (if r.Ok? then Cow else Legacy) && (r.Ok? ==> r.value == |idxs|)
      ensures capacity == old(capacity)
    {
      idxs := [];
      if mode != Legacy {
        v := v.(marker := !w.mark && v.marker);
        return Err(Other), idxs;
      }
      var listing := Listing(v);
      idxs := listing;
      if w.marker != Lost {
        v := v.(marker := true);
      }
      if w.marker != Fine {
        return Err(S3Error), idxs;
      }
      var n: nat := 0;
      ghost var from := v;
      while n < |listing|
        invariant n <= |listing| && (v, true) == MigrateUpto(p, from, idxs, n, w)
        invariant mode == Legacy && capacity == old(capacity)
      {
        var ok := MigrateChunk(listing[n], w.chunk(listing[n]));
        if !ok {
          Stopped(p, from, idxs, n, w, v);
          return Err(S3Error), idxs;
        }
        n := n + 1;
      }
      var (u, ok) := Commit(v, Meta(capacity, p.cs, p.bs, p.algorithm, Cow), w);
      v := u;
      if !ok {
        return Err(S3Error), idxs;
      }
      mode := Cow;
      r := Ok(n);
    }

    /** One turn of the loop. */
    method MigrateChunk(i: Index, f: ChunkFate) returns (ok: bool)
      modifies this`v
      ensures (v, ok) == MigrateOne(p, old(v), i, f)
    {
      var body := Body(v, i);
      if body.None? {
        return true;
      }
      if f.payload != Lost {
        v := PutObject(p, v, body.value);
      }
      if f.payload != Fine {
        return false;
      }
      if f.pointer != Lost {
        v := PutPointer(p, v, i, body.value);
      }
      if f.pointer != Fine {
        return false;
      }
      v := DropLegacy(v, i, f.sharded, f.flat);
      ok := true;
    }
  }

  /** The chunk indexes under either form of key, in order and once each. */
  method Listing(v: Keys) returns (idxs: seq<Index>)
    ensures Lists(idxs, v) && MemoryStore.Ascending(idxs)
  {
    var q := MemoryStore.Sorted(v.sharded.Keys + v.flat.Keys);
    forall k | 0 <= k < |q| ensures q[k] < U64 {
      assert q[k] in q;
    }
    idxs := seq(|q|, k requires 0 <= k < |q| => q[k]);
    forall i: Index ensures i in idxs <==> i in q {
      if i in q {
        var k :| 0 <= k < |q| && q[k] == i;
        assert idxs[k] == i;
      }
    }
  }

  /** Once one chunk has stopped an attempt, the rest of the listing is not reached. */
  lemma {:induction false} Stopped(p: Params, v: Keys, idxs: seq<Index>, n: nat, w: Weather, u: Keys)
    requires n < |idxs| && MigrateUpto(p, v, idxs, n + 1, w) == (u, false)
    ensures MigrateUpto(p, v, idxs, |idxs|, w) == (u, false)
    decreases |idxs| - n
  {
    if n + 1 < |idxs| {
      Stopped(p, v, idxs, n + 1, w, u);
    }
  }
}
